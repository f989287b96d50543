/** The tokenizer's output as the linter sees it, and the line-to-tokens index built from it. */
module Tokens {
  import opened Wrappers
  import opened Text

  /** A token value: a string for names and punctuation, a number for indentation widths. */
  datatype Value = Str(s: string) | Num(n: int)

  /** JavaScript truthiness of a value. */
  predicate Truthy(v: Value)
  {
    match v
    case Str(s) => s != []
    case Num(n) => n != 0
  }

  /** The value converted to a string, as concatenation and regular-expression tests do. */
  function ValueText(v: Value): string
  {
    match v
    case Str(s) => s
    case Num(n) => IntToString(n)
  }

  /**
   * A token `[kind, value, line]` with its two optional properties; None is a property the
   * token does not have, so presence (`!= null`) and truthiness can both be asked.
   */
  datatype Token = Token(kind: string, value: Value, line: nat, generated: Option<bool>, newLine: Option<bool>)

  type LineIndex = map<nat, seq<Token>>

  /** `tokensByLine[line] ?= []; tokensByLine[line].push(token)` */
  function AddToken(index: LineIndex, t: Token): (r: LineIndex)
    ensures t.line in r
    ensures t.line in index ==> r[t.line] == index[t.line] + [t]
    ensures t.line !in index ==> r[t.line] == [t]
  {
    index[t.line := (if t.line in index then index[t.line] else []) + [t]]
  }

  /** Filing a token touches only its own line: the other keys and buckets stay as they were. */
  lemma AddTokenLeavesOtherLines(index: LineIndex, t: Token)
    ensures AddToken(index, t).Keys == index.Keys + {t.line}
    ensures forall k :: k in index && k != t.line ==> AddToken(index, t)[k] == index[k]
  {
  }

  /** The index after adding the tokens of `ts` one by one, in stream order. */
  function Indexed(index: LineIndex, ts: seq<Token>): LineIndex
  {
    if ts == [] then index else AddToken(Indexed(index, ts[..|ts| - 1]), ts[|ts| - 1])
  }

  /** The index the lexical pass builds from an empty dictionary. */
  function Index(ts: seq<Token>): LineIndex
  {
    Indexed(map[], ts)
  }

  /** The tokens of `ts` that lie on line `k`, in stream order. */
  function TokensOn(ts: seq<Token>, k: nat): seq<Token>
  {
    if ts == [] then [] else (if ts[0].line == k then [ts[0]] else []) + TokensOn(ts[1..], k)
  }

  lemma {:induction false} TokensOnSnoc(ts: seq<Token>, t: Token, k: nat)
    ensures TokensOn(ts + [t], k) == TokensOn(ts, k) + (if t.line == k then [t] else [])
  {
    if ts != [] {
      assert (ts + [t])[1..] == ts[1..] + [t];
      TokensOnSnoc(ts[1..], t, k);
    }
  }

  /** No token lies on line `k` exactly when filtering for it leaves nothing. */
  lemma {:induction false} TokensOnEmpty(ts: seq<Token>, k: nat)
    ensures TokensOn(ts, k) == [] <==> forall j :: 0 <= j < |ts| ==> ts[j].line != k
  {
    if ts != [] {
      TokensOnEmpty(ts[1..], k);
      assert forall j :: 1 <= j < |ts| ==> ts[j] == ts[1..][j - 1];
    }
  }

  /** A line is a key of the index iff some token lies on it. */
  lemma {:induction false} IndexKeys(ts: seq<Token>)
    ensures forall k :: k in Index(ts) <==> exists j :: 0 <= j < |ts| && ts[j].line == k
  {
    if ts != [] {
      var init, t := ts[..|ts| - 1], ts[|ts| - 1];
      IndexKeys(init);
      var before := Index(init);
      assert Index(ts) == AddToken(before, t);
      AddTokenLeavesOtherLines(before, t);
      forall k | k in before ensures exists j :: 0 <= j < |ts| && ts[j].line == k {
        var j :| 0 <= j < |init| && init[j].line == k;
        assert ts[j].line == k;
      }
      forall k | exists j :: 0 <= j < |ts| && ts[j].line == k ensures k in Index(ts) {
        var j :| 0 <= j < |ts| && ts[j].line == k;
        if j < |init| {
          assert init[j].line == k;
        }
      }
    }
  }

  /** The bucket of a line holds exactly the tokens on that line, in stream order. */
  lemma {:induction false} IndexBuckets(ts: seq<Token>)
    ensures forall k :: k in Index(ts) ==> Index(ts)[k] == TokensOn(ts, k)
  {
    if ts != [] {
      var init, t := ts[..|ts| - 1], ts[|ts| - 1];
      assert ts == init + [t];
      IndexBuckets(init);
      IndexKeys(init);
      var before := Index(init);
      assert Index(ts) == AddToken(before, t);
      AddTokenLeavesOtherLines(before, t);
      forall k | k in Index(ts) ensures Index(ts)[k] == TokensOn(ts, k) {
        TokensOnSnoc(init, t, k);
        if k !in before {
          TokensOnEmpty(init, k);
        }
      }
    }
  }

  /**
   * The index invariant: line `k` is a key iff some token lies on it, and its bucket is exactly
   * the tokens on that line, in stream order.
   */
  lemma IndexIsFilter(ts: seq<Token>)
    ensures forall k :: k in Index(ts) <==> exists j :: 0 <= j < |ts| && ts[j].line == k
    ensures forall k :: k in Index(ts) ==> Index(ts)[k] == TokensOn(ts, k)
    ensures forall k :: k !in Index(ts) ==> TokensOn(ts, k) == []
  {
    IndexKeys(ts);
    IndexBuckets(ts);
    forall k | k !in Index(ts) ensures TokensOn(ts, k) == [] {
      TokensOnEmpty(ts, k);
    }
  }
}

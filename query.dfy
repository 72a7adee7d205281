/**
  Query-string parsing (`_parse_qsl`) and the `GET` dictionary built from it.

  `;` separates pairs like `&`, empty segments are skipped, a pair is cut at
  its first `=` (a pair without one gets an empty value), `+` becomes a
  space and each half is then URL-unquoted.  URL unquoting is a library
  call; the model takes it as a parameter.
 */
module Query {
  import opened Strings

  /** `urllib.unquote`, supplied by the caller. */
  type Unquote = string -> string

  type Pair = (string, string)

  /** The segments `qs.replace(';', '&').split('&')`, empty ones included. */
  function Segments(qs: string): (segs: seq<string>)
    ensures forall i :: 0 <= i < |segs| ==> '&' !in segs[i] && ';' !in segs[i]
  {
    var segs := Split(Replace(qs, ';', '&'), '&');
    assert forall i :: 0 <= i < |segs| ==> ';' !in segs[i] by {
      forall i | 0 <= i < |segs| ensures ';' !in segs[i] {
        PieceInJoin(segs, '&', i);
      }
    }
    segs
  }

  /** Every character of a piece is a character of the joined string. */
  lemma {:induction false} PieceInJoin(parts: seq<string>, sep: char, i: nat)
    requires i < |parts|
    ensures forall c :: c in parts[i] ==> c in Join(parts, sep)
    decreases |parts|
  {
    if |parts| > 1 {
      assert Join(parts, sep) == parts[0] + [sep] + Join(parts[1..], sep);
      if i > 0 {
        PieceInJoin(parts[1..], sep, i - 1);
        assert parts[1..][i - 1] == parts[i];
      }
    }
  }

  /** One non-empty segment turned into its (key, value) pair. */
  function ParsePair(segment: string, unquote: Unquote): Pair
  {
    var nv := SplitOnce(segment, '=');
    var raw := if |nv| == 2 then nv[1] else "";
    (unquote(Replace(nv[0], '+', ' ')), unquote(Replace(raw, '+', ' ')))
  }

  /** The pairs the loop has appended after reading `segs`, in reading order. */
  function PairsOf(segs: seq<string>, unquote: Unquote): seq<Pair>
  {
    if segs == [] then []
    else
      var last := segs[|segs| - 1];
      PairsOf(segs[..|segs| - 1], unquote) + (if last == "" then [] else [ParsePair(last, unquote)])
  }

  /** The non-empty segments, in order. */
  function NonEmpty(segs: seq<string>): seq<string>
  {
    if segs == [] then []
    else
      var last := segs[|segs| - 1];
      NonEmpty(segs[..|segs| - 1]) + (if last == "" then [] else [last])
  }

  /** What `_parse_qsl(qs)` returns. */
  function Qsl(qs: string, unquote: Unquote): seq<Pair>
  {
    PairsOf(Segments(qs), unquote)
  }

  /** `_parse_qsl`: the loop appending one pair per non-empty segment to `r`. */
  method ParseQsl(qs: string, unquote: Unquote) returns (r: seq<Pair>)
    ensures r == Qsl(qs, unquote)
  {
    r := [];
    var segs := Segments(qs);
    for i := 0 to |segs|
      invariant r == PairsOf(segs[..i], unquote)
    {
      assert segs[..i + 1][..i] == segs[..i];
      var pair := segs[i];
      if pair == "" {
        continue;
      }
      var nv := SplitOnce(pair, '=');
      if |nv| != 2 {
        nv := nv + [""];
      }
      var key := unquote(Replace(nv[0], '+', ' '));
      var value := unquote(Replace(nv[1], '+', ' '));
      r := r + [(key, value)];
    }
    assert segs[..|segs|] == segs;
  }

  /** `dict(pairs)`: a later pair overrides an earlier one with the same key. */
  function ToDict(pairs: seq<Pair>): map<string, string>
  {
    if pairs == [] then map[]
    else
      var last := pairs[|pairs| - 1];
      ToDict(pairs[..|pairs| - 1])[last.0 := last.1]
  }

  /** `Request.GET`: the query parameters as a dictionary. */
  function GetParams(qs: string, unquote: Unquote): map<string, string>
  {
    ToDict(Qsl(qs, unquote))
  }

  // ---------------------------------------------------------------------
  // Properties.
  // ---------------------------------------------------------------------

  /**
    The result has one pair per non-empty segment, in segment order: the
    i-th pair is parsed from the i-th non-empty segment.
   */
  lemma {:induction false} PairsFollowSegments(segs: seq<string>, unquote: Unquote)
    ensures |PairsOf(segs, unquote)| == |NonEmpty(segs)|
    ensures forall i :: 0 <= i < |NonEmpty(segs)| ==>
      NonEmpty(segs)[i] != "" && PairsOf(segs, unquote)[i] == ParsePair(NonEmpty(segs)[i], unquote)
  {
    if segs != [] {
      PairsFollowSegments(segs[..|segs| - 1], unquote);
    }
  }

  /**
    Skipping empty segments keeps the order of the others: the non-empty
    segments of `a + b` are those of `a` followed by those of `b`.
   */
  lemma {:induction false} NonEmptyKeepsOrder(a: seq<string>, b: seq<string>)
    ensures NonEmpty(a + b) == NonEmpty(a) + NonEmpty(b)
    decreases |b|
  {
    if b != [] {
      var init := b[..|b| - 1];
      NonEmptyKeepsOrder(a, init);
      assert (a + b)[..|a + b| - 1] == a + init;
    } else {
      assert a + b == a;
    }
  }

  /** The pairs of consecutive runs of segments are the pairs of each run, in order. */
  lemma {:induction false} PairsOfAppend(a: seq<string>, b: seq<string>, unquote: Unquote)
    ensures PairsOf(a + b, unquote) == PairsOf(a, unquote) + PairsOf(b, unquote)
    decreases |b|
  {
    if b != [] {
      var init := b[..|b| - 1];
      PairsOfAppend(a, init, unquote);
      assert (a + b)[..|a + b| - 1] == a + init;
    } else {
      assert a + b == a;
    }
  }

  /**
    `;` and `&` both separate pairs: a query string cut at either one
    yields the pairs of the part before it followed by those of the part
    after it.
   */
  lemma SeparatorCutsPairs(a: string, c: char, b: string, unquote: Unquote)
    requires c == '&' || c == ';'
    ensures Qsl(a + [c] + b, unquote) == Qsl(a, unquote) + Qsl(b, unquote)
  {
    var ra := Replace(a, ';', '&');
    var rb := Replace(b, ';', '&');
    ReplaceAround(a, c, b, ';', '&');
    SplitAround(ra, '&', rb);
    assert Segments(a + [c] + b) == Segments(a) + Segments(b);
    PairsOfAppend(Segments(a), Segments(b), unquote);
  }

  /**
    A segment is cut at its first `=` only: the key is everything before
    it (after `+` becomes a space) and the value is everything after it,
    further `=` included.
   */
  lemma PairCutsAtFirstEquals(segment: string, unquote: Unquote)
    requires '=' in segment
    ensures var i := IndexOf(segment, '=');
      ParsePair(segment, unquote)
      == (unquote(Replace(segment[..i], '+', ' ')), unquote(Replace(segment[i + 1..], '+', ' ')))
  {
    var i := IndexOf(segment, '=');
    var nv := SplitOnce(segment, '=');
    assert nv == [segment[..i], segment[i + 1..]];
  }

  /** A segment without `=` is a key whose value is the unquoted empty string. */
  lemma PairWithoutEquals(segment: string, unquote: Unquote)
    requires '=' !in segment
    ensures ParsePair(segment, unquote) == (unquote(Replace(segment, '+', ' ')), unquote(""))
  {
  }

  /**
    No `+` reaches the unquoting function: whatever `unquote` is, it is
    handed the two halves the identity would return, and neither holds a `+`.
   */
  lemma PlusBecomesSpace(segment: string)
    ensures var raw := ParsePair(segment, s => s);
      && '+' !in raw.0 && '+' !in raw.1
      && forall unquote: Unquote :: ParsePair(segment, unquote) == (unquote(raw.0), unquote(raw.1))
  {
  }

  /**
    `GET` keeps every key that occurs and, for a repeated key, the value of
    its last occurrence.
   */
  lemma {:induction false} ToDictLastWins(pairs: seq<Pair>, k: string)
    ensures k in ToDict(pairs) <==> exists i :: 0 <= i < |pairs| && pairs[i].0 == k
    ensures forall i :: (0 <= i < |pairs| && pairs[i].0 == k
      && (forall j :: i < j < |pairs| ==> pairs[j].0 != k)) ==> ToDict(pairs)[k] == pairs[i].1
  {
    if pairs != [] {
      var init := pairs[..|pairs| - 1];
      ToDictLastWins(init, k);
      var last := pairs[|pairs| - 1];
      if last.0 != k {
        if k in ToDict(pairs) {
          var i :| 0 <= i < |init| && init[i].0 == k;
          assert pairs[i].0 == k;
        }
        forall i | 0 <= i < |pairs| && pairs[i].0 == k
          && (forall j :: i < j < |pairs| ==> pairs[j].0 != k)
          ensures ToDict(pairs)[k] == pairs[i].1
        {
          assert init[i] == pairs[i];
        }
      }
    }
  }
}

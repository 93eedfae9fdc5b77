/**
 * The string operations the job filter and the workflow handlers rely on:
 * `toLowerCase`, `includes` and `join`. Case folding is ASCII only.
 */
module Text {

  predicate IsUpper(c: char)
  {
    'A' <= c <= 'Z'
  }

  /** ASCII case folding of one character; every non-letter is kept. */
  function LowerChar(c: char): (d: char)
    ensures !IsUpper(d)
    ensures IsUpper(c) || d == c
    ensures d as int - c as int == (if IsUpper(c) then 32 else 0)
  {
    if IsUpper(c) then (c as int + 32) as char else c
  }

  /** `toLowerCase` restricted to ASCII letters. */
  function ToLower(s: string): (r: string)
    ensures |r| == |s|
    ensures forall i :: 0 <= i < |s| ==> r[i] == LowerChar(s[i])
  {
    if s == [] then [] else [LowerChar(s[0])] + ToLower(s[1..])
  }

  /** Folding twice is folding once, so lower-casing a query first changes no match. */
  lemma ToLowerIdempotent(s: string)
    ensures ToLower(ToLower(s)) == ToLower(s)
  {
    var once := ToLower(s);
    assert forall i :: 0 <= i < |once| ==> LowerChar(once[i]) == once[i];
  }

  /** `needle` occurs in `hay` starting at position `i`. */
  ghost predicate OccursAt(hay: string, needle: string, i: nat)
  {
    i + |needle| <= |hay| && hay[i..i + |needle|] == needle
  }

  /** `String.prototype.includes`: some suffix of `hay` starts with `needle`. */
  function Includes(hay: string, needle: string): (r: bool)
    ensures needle == "" ==> r
    ensures r ==> |needle| <= |hay|
    decreases |hay|
  {
    needle <= hay || (hay != [] && Includes(hay[1..], needle))
  }

  /** A successful `Includes` names a position where the needle occurs. */
  lemma {:induction false} IncludesWitness(hay: string, needle: string) returns (i: nat)
    requires Includes(hay, needle)
    ensures OccursAt(hay, needle, i)
    decreases |hay|
  {
    if needle <= hay {
      i := 0;
    } else {
      var k := IncludesWitness(hay[1..], needle);
      assert hay[k + 1..k + 1 + |needle|] == hay[1..][k..k + |needle|];
      i := k + 1;
    }
  }

  /** An occurrence at any position makes `Includes` succeed. */
  lemma {:induction false} OccursIncludes(hay: string, needle: string, i: nat)
    requires OccursAt(hay, needle, i)
    ensures Includes(hay, needle)
    decreases i
  {
    if i > 0 {
      assert hay[1..][i - 1..i - 1 + |needle|] == hay[i..i + |needle|];
      OccursIncludes(hay[1..], needle, i - 1);
    }
  }

  /** `Includes` holds exactly when the needle occurs at some position. */
  lemma IncludesIff(hay: string, needle: string)
    ensures Includes(hay, needle) <==> exists i: nat :: OccursAt(hay, needle, i)
  {
    if Includes(hay, needle) {
      var i := IncludesWitness(hay, needle);
    }
    forall i: nat | OccursAt(hay, needle, i) ensures Includes(hay, needle) {
      OccursIncludes(hay, needle, i);
    }
  }

  /** An occurrence inside a piece is an occurrence in any concatenation around it. */
  lemma IncludesInside(pre: string, needle: string, post: string)
    ensures Includes(pre + needle + post, needle)
  {
    var hay := pre + needle + post;
    assert hay[|pre|..|pre| + |needle|] == needle;
    assert OccursAt(hay, needle, |pre|);
    IncludesIff(hay, needle);
  }

  /** `Array.prototype.join(sep)`. */
  function Join(parts: seq<string>, sep: string): (r: string)
    ensures parts == [] ==> r == ""
    ensures |parts| > 0 ==> parts[0] <= r
    ensures |parts| > 1 ==> parts[0] + sep <= r
  {
    if parts == [] then ""
    else if |parts| == 1 then parts[0]
    else parts[0] + sep + Join(parts[1..], sep)
  }

  /** Every joined part can be found in the joined string. */
  lemma {:induction false} JoinIncludesParts(parts: seq<string>, sep: string, k: nat)
    requires k < |parts|
    ensures Includes(Join(parts, sep), parts[k])
  {
    if |parts| == 1 {
      IncludesInside("", parts[0], "");
    } else if k == 0 {
      IncludesInside("", parts[0], sep + Join(parts[1..], sep));
      assert parts[0] + sep + Join(parts[1..], sep) == "" + parts[0] + (sep + Join(parts[1..], sep));
    } else {
      JoinIncludesParts(parts[1..], sep, k - 1);
      var tail := Join(parts[1..], sep);
      IncludesIff(tail, parts[k]);
      var i: nat :| OccursAt(tail, parts[k], i);
      var hay := parts[0] + sep + tail;
      assert hay[|parts[0] + sep| + i..|parts[0] + sep| + i + |parts[k]|] == tail[i..i + |parts[k]|];
      assert OccursAt(hay, parts[k], |parts[0] + sep| + i);
      IncludesIff(hay, parts[k]);
    }
  }

  /** Text put in front of a string keeps every occurrence in it. */
  lemma IncludesAfterPrefix(pre: string, hay: string, needle: string)
    requires Includes(hay, needle)
    ensures Includes(pre + hay, needle)
  {
    var i := IncludesWitness(hay, needle);
    assert (pre + hay)[|pre| + i..|pre| + i + |needle|] == hay[i..i + |needle|];
    OccursIncludes(pre + hay, needle, |pre| + i);
  }

  /** Every part of a join can be found in it, whatever text precedes the join. */
  lemma PrefixedJoinIncludesParts(pre: string, parts: seq<string>, sep: string)
    ensures forall k :: 0 <= k < |parts| ==> Includes(pre + Join(parts, sep), parts[k])
  {
    forall k | 0 <= k < |parts| ensures Includes(pre + Join(parts, sep), parts[k]) {
      JoinIncludesParts(parts, sep, k);
      IncludesAfterPrefix(pre, Join(parts, sep), parts[k]);
    }
  }
}

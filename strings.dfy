/**
 * The Python string operations the exporter relies on: substring search
 * (`sub in s`), `s.split(sep)`, `sep.join(parts)` and `c * n`, with the laws
 * that relate them.
 */
module Strings {
  import opened Errors

  /** `sub` occurs in `s` starting at index `k`. */
  predicate OccursAt(s: string, sub: string, k: nat)
  {
    k + |sub| <= |s| && s[k..k + |sub|] == sub
  }

  /** The leftmost index at or after `i` at which `sub` occurs in `s`. */
  function FindFrom(s: string, sub: string, i: nat): (r: Option<nat>)
    ensures r.Some? ==> i <= r.value && OccursAt(s, sub, r.value)
    decreases |s| - i
  {
    if |s| < i + |sub| then None
    else if s[i..i + |sub|] == sub then Some(i)
    else FindFrom(s, sub, i + 1)
  }

  /** FindFrom misses no earlier occurrence. */
  lemma {:induction false} FindFromLeftmost(s: string, sub: string, i: nat, k: nat)
    requires i <= k
    requires FindFrom(s, sub, i).None? || k < FindFrom(s, sub, i).value
    ensures !OccursAt(s, sub, k)
    decreases |s| - i
  {
    if |s| >= i + |sub| && s[i..i + |sub|] != sub && i < k {
      FindFromLeftmost(s, sub, i + 1, k);
    }
  }

  /** The leftmost index at which `sub` occurs in `s` (Python's `s.find(sub)`). */
  function Find(s: string, sub: string): (r: Option<nat>)
    ensures r.Some? ==> OccursAt(s, sub, r.value)
  {
    FindFrom(s, sub, 0)
  }

  /** Find misses no occurrence before the one it returns. */
  lemma FindLeftmost(s: string, sub: string, k: nat)
    requires Find(s, sub).None? || k < Find(s, sub).value
    ensures !OccursAt(s, sub, k)
  {
    FindFromLeftmost(s, sub, 0, k);
  }

  lemma {:induction false} FindFromFirst(s: string, sub: string, i: nat, k: nat)
    requires i <= k && OccursAt(s, sub, k)
    requires forall j :: i <= j < k ==> !OccursAt(s, sub, j)
    ensures FindFrom(s, sub, i) == Some(k)
    decreases k - i
  {
    if i < k {
      assert !OccursAt(s, sub, i);
      FindFromFirst(s, sub, i + 1, k);
    }
  }

  lemma {:induction false} FindFromNone(s: string, sub: string, i: nat)
    requires forall j: nat :: i <= j ==> !OccursAt(s, sub, j)
    ensures FindFrom(s, sub, i) == None
    decreases |s| - i
  {
    if |s| >= i + |sub| {
      assert !OccursAt(s, sub, i);
      FindFromNone(s, sub, i + 1);
    }
  }

  /** The first occurrence is the one Find returns. */
  lemma FindFirst(s: string, sub: string, k: nat)
    requires OccursAt(s, sub, k)
    requires forall j :: 0 <= j < k ==> !OccursAt(s, sub, j)
    ensures Find(s, sub) == Some(k)
  {
    FindFromFirst(s, sub, 0, k);
  }

  /** With no occurrence, Find returns None. */
  lemma FindNone(s: string, sub: string)
    requires forall j: nat :: !OccursAt(s, sub, j)
    ensures Find(s, sub) == None
  {
    FindFromNone(s, sub, 0);
  }

  /** Python's `sub in s`: true exactly when `sub` occurs somewhere in `s`. */
  predicate Contains(s: string, sub: string)
    ensures Contains(s, sub) <==> exists k: nat :: OccursAt(s, sub, k)
  {
    FindSomeIff(s, sub);
    Find(s, sub).Some?
  }

  /** Find reports something exactly when there is an occurrence. */
  lemma FindSomeIff(s: string, sub: string)
    ensures Find(s, sub).Some? <==> exists k: nat :: OccursAt(s, sub, k)
  {
    if Find(s, sub).None? {
      forall k: nat ensures !OccursAt(s, sub, k) {
        FindLeftmost(s, sub, k);
      }
    }
  }

  /** Python's `s.split(sep)` for a non-empty separator: cut at the leftmost
      occurrence of `sep`, then split what follows it. */
  function SplitOn(s: string, sep: string): (parts: seq<string>)
    requires |sep| > 0
    ensures |parts| >= 1
    decreases |s|
  {
    match Find(s, sep)
    case None => [s]
    case Some(k) => [s[..k]] + SplitOn(s[k + |sep|..], sep)
  }

  /** Python's `sep.join(parts)`. */
  function Join(sep: string, parts: seq<string>): (r: string)
    decreases |parts|
  {
    if |parts| == 0 then ""
    else if |parts| == 1 then parts[0]
    else parts[0] + sep + Join(sep, parts[1..])
  }

  /** Python's `s * n` for a one-character `s`: empty when `n <= 0`. */
  function Repeat(c: char, n: int): (r: string)
    ensures |r| == if n <= 0 then 0 else n
    ensures forall i :: 0 <= i < |r| ==> r[i] == c
    decreases n
  {
    if n <= 0 then [] else [c] + Repeat(c, n - 1)
  }

  /** `s` with every occurrence of `c` deleted. */
  function RemoveChar(s: string, c: char): string
  {
    if s == [] then []
    else (if s[0] == c then [] else [s[0]]) + RemoveChar(s[1..], c)
  }

  lemma {:induction false} RemoveCharAppend(a: string, b: string, c: char)
    ensures RemoveChar(a + b, c) == RemoveChar(a, c) + RemoveChar(b, c)
    decreases |a|
  {
    if a == [] {
      assert a + b == b;
    } else {
      assert (a + b)[1..] == a[1..] + b;
      RemoveCharAppend(a[1..], b, c);
    }
  }

  lemma {:induction false} RemoveCharAbsent(s: string, c: char)
    requires c !in s
    ensures RemoveChar(s, c) == s
    decreases |s|
  {
    if s != [] {
      RemoveCharAbsent(s[1..], c);
    }
  }

  /** Deleting `c` from `a + [c] + b`, where `a` holds no `c`. */
  lemma RemoveCharAt(a: string, c: char, b: string)
    requires c !in a
    ensures RemoveChar(a + [c] + b, c) == a + RemoveChar(b, c)
  {
    var t := [c] + b;
    assert t[1..] == b;
    assert RemoveChar(t, c) == RemoveChar(b, c);
    assert a + [c] + b == a + t;
    RemoveCharAppend(a, t, c);
    RemoveCharAbsent(a, c);
  }

  /** A string with no character equal to the separator's first one holds
      no occurrence of the separator. */
  lemma FindAbsent(line: string, sep: string)
    requires |sep| > 0 && sep[0] !in line
    ensures Find(line, sep) == None
  {
    forall k: nat ensures !OccursAt(line, sep, k) {
      if k + |sep| <= |line| {
        assert line[k..k + |sep|][0] == line[k];
      }
    }
    FindNone(line, sep);
  }

  /** A one-character search that finds nothing means the character is absent;
      one that finds index `k` means no earlier occurrence. */
  lemma FindChar(s: string, c: char)
    ensures Find(s, [c]).None? ==> c !in s
    ensures Find(s, [c]).Some? ==> s[Find(s, [c]).value] == c && c !in s[..Find(s, [c]).value]
  {
    forall k | 0 <= k < |s| ensures OccursAt(s, [c], k) <==> s[k] == c {
      assert s[k..k + 1] == [s[k]];
    }
    forall k | 0 <= k < |s| && (Find(s, [c]).None? || k < Find(s, [c]).value)
      ensures s[k] != c
    {
      FindLeftmost(s, [c], k);
    }
  }

  lemma JoinCons(sep: string, first: string, more: seq<string>)
    requires |more| >= 1
    ensures Join(sep, [first] + more) == first + sep + Join(sep, more)
  {
    assert ([first] + more)[1..] == more;
  }

  /** A string is the concatenation of its three slices around two cut points. */
  lemma SliceAround(s: string, k: nat, m: nat)
    requires k <= m <= |s|
    ensures s == s[..k] + s[k..m] + s[m..]
  {
    assert s[..m] == s[..k] + s[k..m];
    assert s == s[..m] + s[m..];
  }

  /** One step of SplitOn at the leftmost occurrence of the separator. */
  lemma SplitOnFound(s: string, sep: string, k: nat)
    requires |sep| > 0 && Find(s, sep) == Some(k)
    ensures k + |sep| <= |s|
    ensures SplitOn(s, sep) == [s[..k]] + SplitOn(s[k + |sep|..], sep)
  {
  }

  /** Splitting and rejoining with the same separator gives back the string. */
  lemma {:induction false} JoinSplitOn(s: string, sep: string)
    requires |sep| > 0
    ensures Join(sep, SplitOn(s, sep)) == s
    decreases |s|
  {
    var r := Find(s, sep);
    if r.Some? {
      var k := r.value;
      var head, rest := s[..k], s[k + |sep|..];
      JoinSplitOn(rest, sep);
      SplitOnFound(s, sep, k);
      JoinCons(sep, head, SplitOn(rest, sep));
      SliceAround(s, k, k + |sep|);
      assert s[k..k + |sep|] == sep;
    } else {
      assert SplitOn(s, sep) == [s];
    }
  }

  lemma FindAfterLine(line: string, sep: string, rest: string)
    requires |sep| > 0 && sep[0] !in line
    ensures Find(line + sep + rest, sep) == Some(|line|)
  {
    var s := line + sep + rest;
    assert s[|line|..|line| + |sep|] == sep;
    assert OccursAt(s, sep, |line|);
    forall k | 0 <= k < |line| ensures !OccursAt(s, sep, k) {
      if k + |sep| <= |s| {
        assert s[k..k + |sep|][0] == line[k];
      }
    }
    FindFirst(s, sep, |line|);
  }

  /** Splitting cuts right after such a line. */
  lemma SplitOnAfterLine(line: string, sep: string, rest: string)
    requires |sep| > 0 && sep[0] !in line
    ensures SplitOn(line + sep + rest, sep) == [line] + SplitOn(rest, sep)
  {
    var s := line + sep + rest;
    FindAfterLine(line, sep, rest);
    SplitOnFound(s, sep, |line|);
    assert s[..|line|] == line;
    assert s[|line| + |sep|..] == rest;
  }

  /** Joining lines with a separator and splitting on it gives the lines
      back, provided no line holds the separator's first character. */
  lemma {:induction false} SplitOnJoin(lines: seq<string>, sep: string)
    requires |lines| >= 1 && |sep| > 0
    requires forall i :: 0 <= i < |lines| ==> sep[0] !in lines[i]
    ensures SplitOn(Join(sep, lines), sep) == lines
    decreases |lines|
  {
    if |lines| == 1 {
      FindAbsent(lines[0], sep);
    } else {
      var rest := Join(sep, lines[1..]);
      assert Join(sep, lines) == lines[0] + sep + rest;
      SplitOnAfterLine(lines[0], sep, rest);
      SplitOnJoin(lines[1..], sep);
      assert lines == [lines[0]] + lines[1..];
    }
  }

  /** Splitting on one character and joining with nothing deletes it. */
  lemma {:induction false} JoinEmptySplitOn(s: string, c: char)
    ensures Join("", SplitOn(s, [c])) == RemoveChar(s, c)
    decreases |s|
  {
    var r := Find(s, [c]);
    if r.None? {
      FindChar(s, c);
      RemoveCharAbsent(s, c);
      assert SplitOn(s, [c]) == [s];
    } else {
      JoinEmptyFound(s, c, r.value);
      RemoveCharFound(s, c, r.value);
      JoinEmptySplitOn(s[r.value + 1..], c);
    }
  }

  /** Joining the pieces of a split with nothing keeps the text before the
      first occurrence of the character and continues after it. */
  lemma JoinEmptyFound(s: string, c: char, k: nat)
    requires Find(s, [c]) == Some(k)
    ensures k < |s|
    ensures Join("", SplitOn(s, [c])) == s[..k] + Join("", SplitOn(s[k + 1..], [c]))
  {
    SplitOnFound(s, [c], k);
    JoinCons("", s[..k], SplitOn(s[k + 1..], [c]));
  }

  /** Deleting a character keeps the text before its first occurrence. */
  lemma RemoveCharFound(s: string, c: char, k: nat)
    requires Find(s, [c]) == Some(k)
    ensures k < |s|
    ensures RemoveChar(s, c) == s[..k] + RemoveChar(s[k + 1..], c)
  {
    FindChar(s, c);
    SliceAround(s, k, k + 1);
    assert s[k..k + 1] == [c];
    RemoveCharAt(s[..k], c, s[k + 1..]);
  }

  /** Splitting a string that holds no separator gives the string alone. */
  lemma SplitOnAbsent(s: string, c: char)
    requires c !in s
    ensures SplitOn(s, [c]) == [s]
  {
    FindAbsent(s, [c]);
  }

  /** A character absent from a string is absent from every piece of it. */
  lemma {:induction false} SplitOnAvoids(s: string, sep: string, c: char)
    requires |sep| > 0 && c !in s
    ensures forall i :: 0 <= i < |SplitOn(s, sep)| ==> c !in SplitOn(s, sep)[i]
    decreases |s|
  {
    var r := Find(s, sep);
    if r.Some? {
      var k := r.value;
      SplitOnFound(s, sep, k);
      SplitOnAvoids(s[k + |sep|..], sep, c);
      SliceAround(s, k, k + |sep|);
    } else {
      assert SplitOn(s, sep) == [s];
    }
  }

  /** No piece of a split on one character holds that character. */
  lemma {:induction false} SplitOnCharPieces(s: string, c: char)
    ensures forall i :: 0 <= i < |SplitOn(s, [c])| ==> c !in SplitOn(s, [c])[i]
    decreases |s|
  {
    FindChar(s, c);
    var r := Find(s, [c]);
    if r.Some? {
      var k := r.value;
      SplitOnFound(s, [c], k);
      SplitOnCharPieces(s[k + 1..], c);
    } else {
      assert SplitOn(s, [c]) == [s];
    }
  }

  /** Joining pieces that avoid a character, with a separator that avoids
      it, gives a string that avoids it. */
  lemma {:induction false} JoinAvoids(sep: string, parts: seq<string>, c: char)
    requires c !in sep
    requires forall i :: 0 <= i < |parts| ==> c !in parts[i]
    ensures c !in Join(sep, parts)
    decreases |parts|
  {
    if |parts| > 1 {
      JoinAvoids(sep, parts[1..], c);
    }
  }
}

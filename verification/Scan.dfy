/** Searching text for a character. */
module Scan {

  /** The first position of a character; the length if there is none. */
  function Find(s: string, c: char): (i: nat)
    ensures i <= |s|
  {
    if s == "" || s[0] == c then 0 else 1 + Find(s[1..], c)
  }

  lemma {:induction false} FindMeans(s: string, c: char)
    ensures var i := Find(s, c);
            (i < |s| ==> s[i] == c) && forall j :: 0 <= j < i ==> s[j] != c
  {
    if s != "" && s[0] != c {
      FindMeans(s[1..], c);
    }
  }

  lemma FindIs(s: string, c: char, i: nat)
    requires i <= |s| && (i < |s| ==> s[i] == c) && forall j :: 0 <= j < i ==> s[j] != c
    ensures Find(s, c) == i
  {
    FindMeans(s, c);
    var k := Find(s, c);
    assert k < |s| ==> s[k] == c;
    assert i < |s| ==> s[i] == c;
  }

  lemma {:induction false} FindIn(a: string, c: char, b: string)
    requires c !in a
    ensures Find(a + [c] + b, c) == |a|
  {
    if a == "" {
      assert ("" + [c] + b)[0] == c;
    } else {
      var s := a + [c] + b;
      assert s[0] == a[0] && s[1..] == a[1..] + [c] + b;
      FindIn(a[1..], c, b);
    }
  }

  lemma {:induction false} FindNone(a: string, c: char)
    requires c !in a
    ensures Find(a, c) == |a|
  {
    if a != "" {
      FindNone(a[1..], c);
    }
  }

  lemma {:induction false} AbsentFind(a: string, c: char)
    requires Find(a, c) == |a|
    ensures c !in a
  {
    if a != "" {
      AbsentFind(a[1..], c);
    }
  }

  lemma {:induction false} FindKeeps(a: string, c: char, b: string)
    requires Find(a, c) < |a|
    ensures Find(a + b, c) == Find(a, c)
  {
    if a[0] != c {
      FindKeeps(a[1..], c, b);
      assert (a + b)[1..] == a[1..] + b;
    }
  }

  /** Without one trailing carriage return. */
  function StripCr(line: string): string {
    if line != "" && line[|line| - 1] == '\r' then line[..|line| - 1] else line
  }
}

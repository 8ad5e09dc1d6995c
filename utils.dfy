/** `cn`: combines CSS class arguments, dropping the falsy ones. */
module Utils {

  /** One argument of `cn`: a string, `undefined`, `null` or `false`. */
  datatype ClassValue = Class(name: string) | Undefined | Null | False

  /** JavaScript truthiness of an argument: only a non-empty string. */
  predicate Truthy(c: ClassValue) {
    c.Class? && c.name != ""
  }

  /** `classes.filter(Boolean)`: the truthy arguments' strings, in order. */
  function KeptClasses(classes: seq<ClassValue>): (r: seq<string>)
    ensures |r| <= |classes|
    ensures forall i :: 0 <= i < |r| ==> r[i] != "" && Class(r[i]) in classes
    ensures (forall i :: 0 <= i < |classes| ==> !Truthy(classes[i])) <==> r == []
  {
    if classes == [] then []
    else if Truthy(classes[0]) then [classes[0].name] + KeptClasses(classes[1..])
    else KeptClasses(classes[1..])
  }

  /** `parts.join(sep)`. */
  function Join(parts: seq<string>, sep: string): string {
    if parts == [] then ""
    else if |parts| == 1 then parts[0]
    else parts[0] + sep + Join(parts[1..], sep)
  }

  /** `cn(...classes)`. */
  function Cn(classes: seq<ClassValue>): (r: string)
    ensures r == "" <==> forall i :: 0 <= i < |classes| ==> !Truthy(classes[i])
  {
    Join(KeptClasses(classes), " ")
  }

  /** Splits a string at every space (`s.split(" ")`). */
  function SplitSpaces(s: string): (r: seq<string>)
    ensures |r| >= 1
  {
    if s == [] then [""]
    else if s[0] == ' ' then [""] + SplitSpaces(s[1..])
    else
      var rest := SplitSpaces(s[1..]);
      [[s[0]] + rest[0]] + rest[1..]
  }

  predicate NoSpace(s: string) {
    forall i :: 0 <= i < |s| ==> s[i] != ' '
  }

  lemma {:induction false} SplitNoSpace(s: string, tail: string)
    requires NoSpace(s)
    ensures SplitSpaces(s + " " + tail) == [s] + SplitSpaces(tail)
    ensures SplitSpaces(s) == [s]
    decreases |s|
  {
    if s != [] {
      SplitNoSpace(s[1..], tail);
      assert (s + " " + tail)[1..] == s[1..] + " " + tail;
      assert [s[0]] + s[1..] == s;
    } else {
      assert s + " " + tail == " " + tail;
    }
  }

  /** Joining space-free words with single spaces and splitting again gives
      the words back: no separator is added, doubled or lost. */
  lemma {:induction false} SplitJoin(parts: seq<string>)
    requires |parts| >= 1
    requires forall i :: 0 <= i < |parts| ==> NoSpace(parts[i])
    ensures SplitSpaces(Join(parts, " ")) == parts
    decreases |parts|
  {
    if |parts| == 1 {
      SplitNoSpace(parts[0], "");
    } else {
      SplitJoin(parts[1..]);
      SplitNoSpace(parts[0], Join(parts[1..], " "));
    }
  }

  /** The length of a join: every part plus one separator between neighbours. */
  lemma {:induction false} JoinLength(parts: seq<string>, sep: string)
    requires |parts| >= 1
    ensures |Join(parts, sep)| == SumLengths(parts) + (|parts| - 1) * |sep|
    decreases |parts|
  {
    if |parts| > 1 { JoinLength(parts[1..], sep); }
  }

  function SumLengths(parts: seq<string>): nat {
    if parts == [] then 0 else |parts[0]| + SumLengths(parts[1..])
  }

  /** No arguments, or only falsy ones, give the empty string. */
  lemma CnAllFalsy(classes: seq<ClassValue>)
    requires forall i :: 0 <= i < |classes| ==> !Truthy(classes[i])
    ensures Cn(classes) == ""
  {
  }

  /** A falsy argument appended at the end changes nothing. */
  lemma {:induction false} CnIgnoresTrailingFalsy(classes: seq<ClassValue>, c: ClassValue)
    requires !Truthy(c)
    ensures Cn(classes + [c]) == Cn(classes)
  {
    KeptAppend(classes, c);
    assert KeptClasses(classes) + [] == KeptClasses(classes);
  }

  /** A truthy argument appended at the end is joined after a single space,
      unless nothing was kept before it. */
  lemma {:induction false} CnAppendTruthy(classes: seq<ClassValue>, s: string)
    requires s != ""
    ensures Cn(classes + [Class(s)]) ==
      if KeptClasses(classes) == [] then s else Cn(classes) + " " + s
  {
    KeptAppend(classes, Class(s));
    JoinAppend(KeptClasses(classes), s, " ");
  }

  lemma {:induction false} KeptAppend(classes: seq<ClassValue>, c: ClassValue)
    ensures KeptClasses(classes + [c]) ==
      KeptClasses(classes) + (if Truthy(c) then [c.name] else [])
    decreases |classes|
  {
    if classes == [] {
      assert [] + [c] == [c];
    } else {
      assert (classes + [c])[1..] == classes[1..] + [c];
      KeptAppend(classes[1..], c);
    }
  }

  lemma {:induction false} JoinAppend(parts: seq<string>, s: string, sep: string)
    ensures Join(parts + [s], sep) == if parts == [] then s else Join(parts, sep) + sep + s
    decreases |parts|
  {
    if |parts| == 1 {
      assert parts + [s] == [parts[0], s];
    } else if |parts| > 1 {
      assert (parts + [s])[1..] == parts[1..] + [s];
      JoinAppend(parts[1..], s, sep);
    } else {
      assert parts + [s] == [s];
    }
  }

  /** Filtering commutes with concatenation, so the kept strings keep the
      relative order of their arguments. */
  lemma {:induction false} KeptConcat(a: seq<ClassValue>, b: seq<ClassValue>)
    ensures KeptClasses(a + b) == KeptClasses(a) + KeptClasses(b)
    decreases |a|
  {
    if a == [] {
      assert a + b == b;
    } else {
      assert (a + b)[1..] == a[1..] + b;
      KeptConcat(a[1..], b);
    }
  }

  /** The call sites' shapes: `cn(s)` is s, and `cn("space-y-6", className)`. */
  lemma CnExamples(s: string)
    requires s != ""
    ensures Cn([Class(s)]) == s
    ensures Cn([Class(s), Undefined]) == s
    ensures Cn([Class("space-y-6"), Class("custom")]) == "space-y-6 custom"
    ensures Cn([]) == "" && Cn([Undefined, Null, False, Class("")]) == ""
  {
    CnIgnoresTrailingFalsy([Class(s)], Undefined);
    CnAppendTruthy([Class("space-y-6")], "custom");
  }
}

/** SQL text as the layer assembles it: lists joined by a separator, and the
    named parameters (`:name`) a PDO statement text refers to. */
module SqlText {

  /** `implode(sep, items)`. */
  function Join(items: seq<string>, sep: string): string
    decreases |items|
  {
    if |items| == 0 then ""
    else if |items| == 1 then items[0]
    else Join(items[..|items| - 1], sep) + sep + items[|items| - 1]
  }

  /** What a `foreach` loop produces that appends every item followed by `sep`. */
  function Terminated(items: seq<string>, sep: string): string
    decreases |items|
  {
    if |items| == 0 then ""
    else Terminated(items[..|items| - 1], sep) + items[|items| - 1] + sep
  }

  lemma TerminatedSnoc(items: seq<string>, i: nat, sep: string)
    requires i < |items|
    ensures Terminated(items[..i + 1], sep) == Terminated(items[..i], sep) + (items[i] + sep)
  {
    assert items[..i + 1][..i] == items[..i];
  }

  /** One step of a loop building a terminated list: appending the next item
      and the separator to what was built so far. */
  lemma TerminatedStep(built: string, start: string, items: seq<string>, i: nat, sep: string)
    requires i < |items|
    requires built == start + Terminated(items[..i], sep)
    ensures built + (items[i] + sep) == start + Terminated(items[..i + 1], sep)
  {
    TerminatedSnoc(items, i, sep);
  }

  /** Cutting the last separator off a terminated list leaves the joined list. */
  lemma {:induction false} TerminatedIsJoined(items: seq<string>, sep: string)
    requires |items| > 0
    ensures Terminated(items, sep) == Join(items, sep) + sep
    decreases |items|
  {
    if |items| == 1 {
      assert items[..0] == [];
    } else {
      TerminatedIsJoined(items[..|items| - 1], sep);
      assert items[..|items| - 1][..|items| - 2] == items[..|items| - 2];
    }
  }

  /** `substr($s, 0, strlen($s) - strlen(sep))` on a terminated list. */
  lemma TrimTerminated(lead: string, items: seq<string>, sep: string)
    requires |items| > 0
    ensures |lead + Terminated(items, sep)| >= |sep|
    ensures (lead + Terminated(items, sep))[..|lead + Terminated(items, sep)| - |sep|] == lead + Join(items, sep)
  {
    TerminatedIsJoined(items, sep);
    assert lead + Terminated(items, sep) == (lead + Join(items, sep)) + sep;
  }

  /** The characters PDO accepts in a parameter name: letters, digits, `_`. */
  predicate IsNameChar(c: char) {
    'a' <= c <= 'z' || 'A' <= c <= 'Z' || '0' <= c <= '9' || c == '_'
  }

  /** A column, table or parameter name: one or more name characters. */
  predicate IsName(s: string) {
    |s| > 0 && forall i :: 0 <= i < |s| ==> IsNameChar(s[i])
  }

  /** The length of the longest prefix of `s` made of name characters. */
  function NameRun(s: string): (n: nat)
    ensures n <= |s|
    ensures forall i :: 0 <= i < n ==> IsNameChar(s[i])
    ensures n < |s| ==> !IsNameChar(s[n])
    decreases |s|
  {
    if |s| == 0 || !IsNameChar(s[0]) then 0 else 1 + NameRun(s[1..])
  }

  /** The named parameters a statement text refers to, in order of appearance:
      every `:` followed by at least one name character starts a parameter whose
      name is the longest run of name characters after it. */
  function Placeholders(s: string): seq<string>
    decreases |s|
  {
    if |s| == 0 then []
    else if s[0] == ':' && NameRun(s[1..]) > 0 then
      var n := NameRun(s[1..]);
      [s[1..n + 1]] + Placeholders(s[n + 1..])
    else Placeholders(s[1..])
  }

  /** The concatenation point of `a` and `b` cannot fall inside a parameter name. */
  predicate Separable(a: string, b: string) {
    |a| == 0 || |b| == 0 || !IsNameChar(b[0]) || (!IsNameChar(a[|a| - 1]) && a[|a| - 1] != ':')
  }

  lemma {:induction false} NameRunAppend(a: string, b: string)
    requires NameRun(a) < |a| || |b| == 0 || !IsNameChar(b[0])
    ensures NameRun(a + b) == NameRun(a)
    decreases |a|
  {
    if |a| == 0 {
    } else if IsNameChar(a[0]) {
      assert (a + b)[1..] == a[1..] + b;
      NameRunAppend(a[1..], b);
    }
  }

  /** Parameters of a concatenation are those of the parts, when the cut is clean. */
  lemma {:induction false} PlaceholdersAppend(a: string, b: string)
    requires Separable(a, b)
    ensures Placeholders(a + b) == Placeholders(a) + Placeholders(b)
    decreases |a|
  {
    if |a| == 0 {
      assert a + b == b;
    } else if |b| == 0 {
      assert a + b == a;
    } else if a[0] == ':' && NameRun(a[1..]) > 0 {
      PlaceholdersAppendNamed(a, b);
    } else {
      var x := a[1..];
      assert (a + b)[1..] == x + b;
      if a[0] == ':' {
        assert NameRun(x) < |x| || !IsNameChar(b[0]);
        NameRunAppend(x, b);
      }
      PlaceholdersAppend(x, b);
    }
  }

  /** The case of `PlaceholdersAppend` where `a` starts with a parameter. */
  lemma {:induction false} PlaceholdersAppendNamed(a: string, b: string)
    requires |a| > 0 && |b| > 0 && a[0] == ':' && NameRun(a[1..]) > 0
    requires Separable(a, b)
    ensures Placeholders(a + b) == Placeholders(a) + Placeholders(b)
    decreases |a|, 0
  {
    var n := NameRun(a[1..]);
    SlicesOfAppend(a, b, n);
    assert NameRun(a[1..]) < |a[1..]| || !IsNameChar(b[0]);
    NameRunAppend(a[1..], b);
    var rest := a[n + 1..];
    NamedHead(a, n);
    NamedHead(a + b, n);
    assert |rest| == 0 || rest[|rest| - 1] == a[|a| - 1];
    PlaceholdersAppend(rest, b);
  }

  lemma SlicesOfAppend(a: string, b: string, n: nat)
    requires n + 1 <= |a|
    ensures (a + b)[1..] == a[1..] + b
    ensures (a + b)[1..n + 1] == a[1..n + 1]
    ensures (a + b)[n + 1..] == a[n + 1..] + b
  {
  }

  /** One unfolding of `Placeholders` on a text that starts with a parameter
      of `n` characters. */
  lemma NamedHead(s: string, n: nat)
    requires |s| > 0 && s[0] == ':' && n == NameRun(s[1..]) > 0
    ensures Placeholders(s) == [s[1..n + 1]] + Placeholders(s[n + 1..])
  {
  }

  /** A text without a colon refers to no parameter. */
  lemma {:induction false} PlaceholdersNone(s: string)
    requires ':' !in s
    ensures Placeholders(s) == []
    decreases |s|
  {
    if |s| > 0 {
      assert s[0] != ':';
      assert forall i :: 0 <= i < |s| - 1 ==> s[1..][i] == s[i + 1];
      PlaceholdersNone(s[1..]);
    }
  }

  lemma NameHasNoColon(k: string)
    requires IsName(k)
    ensures ':' !in k
  {
  }

  /** `:k`: the placeholder of the parameter named `k`. */
  function Marker(k: string): string {
    ":" + k
  }

  /** `:k` refers to exactly the parameter `k`. */
  lemma PlaceholdersOfMarker(k: string)
    requires IsName(k)
    ensures Placeholders(Marker(k)) == [k]
  {
    var s := ":" + k;
    assert s[1..] == k;
    assert NameRun(k) == |k|;
    assert s[|k| + 1..] == [];
    assert s[1..|k| + 1] == k;
  }

  /** Text without colons on both sides of `mid`, cut where no name can
      continue, adds no parameter to those of `mid`. */
  lemma Enclosed(a: string, mid: string, c: string)
    requires ':' !in a && ':' !in c
    requires |a| == 0 || !IsNameChar(a[|a| - 1])
    requires |c| == 0 || !IsNameChar(c[0])
    ensures Placeholders(a + mid + c) == Placeholders(mid)
  {
    PlaceholdersNone(a);
    PlaceholdersNone(c);
    PlaceholdersAppend(a, mid);
    PlaceholdersAppend(a + mid, c);
  }

  /** A marker between two texts without colons, the second of which does not
      start with a name character, is the only parameter referred to. */
  lemma LoneMarker(before: string, k: string, after: string)
    requires IsName(k) && ':' !in before && ':' !in after
    requires |after| > 0 && !IsNameChar(after[0])
    ensures Placeholders(before + Marker(k) + after) == [k]
  {
    PlaceholdersOfMarker(k);
    PlaceholdersNone(before);
    PlaceholdersNone(after);
    PlaceholdersAppend(before, Marker(k));
    PlaceholdersAppend(before + Marker(k), after);
  }

  /** A marker at the end of a text without colons is the only parameter it refers to. */
  lemma TrailingMarker(before: string, k: string)
    requires IsName(k) && ':' !in before
    ensures Placeholders(before + Marker(k)) == [k]
  {
    PlaceholdersOfMarker(k);
    PlaceholdersNone(before);
    PlaceholdersAppend(before, Marker(k));
  }

  /** The parameters referred to by a list of texts, one text after the other. */
  function PlaceholdersOfAll(items: seq<string>): seq<string>
    decreases |items|
  {
    if |items| == 0 then []
    else PlaceholdersOfAll(items[..|items| - 1]) + Placeholders(items[|items| - 1])
  }

  /** Texts each referring to one parameter refer, one after the other, to all of them. */
  lemma {:induction false} PlaceholdersOfSingles(items: seq<string>, ks: seq<string>)
    requires |items| == |ks|
    requires forall i :: 0 <= i < |items| ==> Placeholders(items[i]) == [ks[i]]
    ensures PlaceholdersOfAll(items) == ks
    decreases |items|
  {
    if |items| > 0 {
      var n := |items|;
      PlaceholdersOfSingles(items[..n - 1], ks[..n - 1]);
      assert ks == ks[..n - 1] + [ks[n - 1]];
    }
  }

  /** Texts referring to no parameter refer to none together. */
  lemma {:induction false} PlaceholdersOfBlanks(items: seq<string>)
    requires forall i :: 0 <= i < |items| ==> Placeholders(items[i]) == []
    ensures PlaceholdersOfAll(items) == []
    decreases |items|
  {
    if |items| > 0 {
      PlaceholdersOfBlanks(items[..|items| - 1]);
    }
  }

  /** A separator that has no colon and starts and ends outside a name adds no
      parameter and does not merge the names on either side of it. */
  predicate IsNeutralSeparator(sep: string) {
    |sep| > 0 && ':' !in sep && !IsNameChar(sep[0]) && !IsNameChar(sep[|sep| - 1])
  }

  lemma {:induction false} PlaceholdersOfJoin(items: seq<string>, sep: string)
    requires IsNeutralSeparator(sep)
    ensures Placeholders(Join(items, sep)) == PlaceholdersOfAll(items)
    decreases |items|
  {
    if |items| == 0 {
    } else if |items| == 1 {
      assert items[..0] == [];
    } else {
      var init, last := items[..|items| - 1], items[|items| - 1];
      PlaceholdersOfJoin(init, sep);
      PlaceholdersAppend(Join(init, sep), sep);
      PlaceholdersNone(sep);
      PlaceholdersAppend(Join(init, sep) + sep, last);
    }
  }
}

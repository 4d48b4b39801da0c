/** The exclusion matcher `_isExclusion`: decides from the URL alone whether a
    response may be written to the fastboot cache. */
module Exclusion {
  import opened Common
  import opened Collaborators

  /** The configured `excludeFromFastbootCache`: anything that is not an array
      counts as `NotAnArray`. */
  datatype ExcludeList = NotAnArray | Entries(entries: seq<string>)

  /** An entry whose first and last characters are `/` is a regular expression
      written as a string. The one-character entry "/" satisfies both tests. */
  predicate IsRegexEntry(entry: string)
  {
    |entry| > 0 && entry[0] == '/' && entry[|entry| - 1] == '/'
  }

  /** `entry.slice(1, -1)`: the pattern between the delimiting slashes. */
  function Interior(entry: string): (p: string)
    requires IsRegexEntry(entry)
    ensures |entry| >= 2 ==> entry == "/" + p + "/"
    ensures |entry| == 1 ==> p == ""
  {
    if |entry| >= 2 then entry[1..|entry| - 1] else ""
  }

  /** An entry whose `new RegExp` throws. */
  predicate Malformed(h: Host, entry: string)
  {
    IsRegexEntry(entry) && !h.regexCompiles(Interior(entry))
  }

  /** An entry that, on its own, excludes `url`. */
  predicate EntryMatches(h: Host, entry: string, url: string)
  {
    if IsRegexEntry(entry) then h.regexTest(Interior(entry), url) else entry == url
  }

  /** Some entry of the list excludes `url`. */
  predicate SomeEntryMatches(h: Host, entries: seq<string>, url: string)
  {
    exists i :: 0 <= i < |entries| && EntryMatches(h, entries[i], url)
  }

  /** Some entry of the list makes the matcher throw. */
  predicate SomeEntryMalformed(h: Host, entries: seq<string>)
  {
    exists i :: 0 <= i < |entries| && Malformed(h, entries[i])
  }

  /** `entries[i]` is the first entry that makes the matcher throw. */
  predicate FirstMalformedAt(h: Host, entries: seq<string>, i: int)
  {
    && 0 <= i < |entries|
    && Malformed(h, entries[i])
    && forall j :: 0 <= j < i ==> !Malformed(h, entries[j])
  }

  /** The `reduce` callback folded left over the entries from `previous`. The
      RegExp of a delimited entry is built before `previous ||` is consulted, so
      a malformed pattern throws even after an earlier entry has matched. */
  function Reduce(h: Host, url: string, entries: seq<string>, previous: bool): (r: Result<bool, string>)
    ensures r.Failure? <==> SomeEntryMalformed(h, entries)
    ensures r.Failure? ==>
      exists i :: FirstMalformedAt(h, entries, i) && r.error == Interior(entries[i])
    ensures r.Success? ==> (r.value <==> previous || SomeEntryMatches(h, entries, url))
    decreases |entries|
  {
    if |entries| == 0 then
      Success(previous)
    else
      var entry := entries[0];
      if Malformed(h, entry) then
        assert FirstMalformedAt(h, entries, 0);
        Failure(Interior(entry))
      else
        Reduce(h, url, entries[1..], previous || EntryMatches(h, entry, url))
  }

  /** `_isExclusion(url, excludeList)`: false for a non-array, otherwise the
      left fold of the entries seeded with false. */
  function IsExclusion(h: Host, url: string, list: ExcludeList): (r: Result<bool, string>)
    ensures list.NotAnArray? ==> r == Success(false)
    ensures list.Entries? ==> (r.Failure? <==> SomeEntryMalformed(h, list.entries))
    ensures list.Entries? && r.Success? ==> (r.value <==> SomeEntryMatches(h, list.entries, url))
    ensures list == Entries([]) ==> r == Success(false)
  {
    match list
    case NotAnArray => Success(false)
    case Entries(entries) => Reduce(h, url, entries, false)
  }

  /** Reordering (or re-counting) the entries changes neither whether the
      matcher throws nor, when it does not, its verdict. */
  lemma {:induction false} PermutationInvariant(h: Host, url: string, a: seq<string>, b: seq<string>)
    requires multiset(a) == multiset(b)
    ensures IsExclusion(h, url, Entries(a)).Failure? == IsExclusion(h, url, Entries(b)).Failure?
    ensures IsExclusion(h, url, Entries(a)).Success? ==>
      IsExclusion(h, url, Entries(a)).value == IsExclusion(h, url, Entries(b)).value
  {
    SameElementsSameVerdict(h, url, a, b);
    SameElementsSameVerdict(h, url, b, a);
  }

  /** Every entry of `a` also occurs in `b`, so whatever `a` contains that
      matches or throws, `b` contains too. */
  lemma SameElementsSameVerdict(h: Host, url: string, a: seq<string>, b: seq<string>)
    requires multiset(a) == multiset(b)
    ensures SomeEntryMalformed(h, a) ==> SomeEntryMalformed(h, b)
    ensures SomeEntryMatches(h, a, url) ==> SomeEntryMatches(h, b, url)
  {
    if SomeEntryMalformed(h, a) {
      var i :| 0 <= i < |a| && Malformed(h, a[i]);
      assert a[i] in multiset(b);
      var j :| 0 <= j < |b| && b[j] == a[i];
    }
    if SomeEntryMatches(h, a, url) {
      var i :| 0 <= i < |a| && EntryMatches(h, a[i], url);
      assert a[i] in multiset(b);
      var j :| 0 <= j < |b| && b[j] == a[i];
    }
  }

  /** Concatenating two exclusion lists ORs their verdicts, and the result
      throws exactly when either part does. */
  lemma {:induction false} Concatenation(h: Host, url: string, a: seq<string>, b: seq<string>)
    ensures IsExclusion(h, url, Entries(a + b)).Failure? <==>
      IsExclusion(h, url, Entries(a)).Failure? || IsExclusion(h, url, Entries(b)).Failure?
    ensures IsExclusion(h, url, Entries(a + b)).Success? ==>
      (IsExclusion(h, url, Entries(a + b)).value <==>
        IsExclusion(h, url, Entries(a)).value || IsExclusion(h, url, Entries(b)).value)
  {
    var ab := a + b;
    if SomeEntryMalformed(h, ab) {
      var i :| 0 <= i < |ab| && Malformed(h, ab[i]);
      if i < |a| { assert ab[i] == a[i]; } else { assert ab[i] == b[i - |a|]; }
    }
    if SomeEntryMalformed(h, a) {
      var i :| 0 <= i < |a| && Malformed(h, a[i]);
      assert ab[i] == a[i];
    }
    if SomeEntryMalformed(h, b) {
      var i :| 0 <= i < |b| && Malformed(h, b[i]);
      assert ab[|a| + i] == b[i];
    }
    if SomeEntryMatches(h, ab, url) {
      var i :| 0 <= i < |ab| && EntryMatches(h, ab[i], url);
      if i < |a| { assert ab[i] == a[i]; } else { assert ab[i] == b[i - |a|]; }
    }
    if SomeEntryMatches(h, a, url) {
      var i :| 0 <= i < |a| && EntryMatches(h, a[i], url);
      assert ab[i] == a[i];
    }
    if SomeEntryMatches(h, b, url) {
      var i :| 0 <= i < |b| && EntryMatches(h, b[i], url);
      assert ab[|a| + i] == b[i];
    }
  }

  /** The one-character entry "/" is a regular expression with an empty
      pattern, not a literal URL. */
  lemma SlashEntryIsEmptyPattern(h: Host, url: string)
    ensures IsExclusion(h, url, Entries(["/"])) ==
      if h.regexCompiles("") then Success(h.regexTest("", url)) else Failure("")
  {
  }

  /** A literal entry is compared by string equality: the empty entry excludes
      only the empty URL, and a URL-shaped literal only itself. */
  lemma LiteralEntryIsExact(h: Host, url: string, entry: string)
    requires !IsRegexEntry(entry)
    ensures IsExclusion(h, url, Entries([entry])) == Success(entry == url)
  {
  }

  /** The configuration example: a literal URL and a delimited pattern for the
      users collection. The pattern's matching is the RegExp engine's, so it is
      taken as a hypothesis about `h`. */
  lemma ExampleConfiguration(h: Host)
    requires h.regexCompiles("^\\/users\\/")
    requires h.regexTest("^\\/users\\/", "/users/42")
    requires !h.regexTest("^\\/users\\/", "/comments/1")
    ensures var list := Entries(["/posts/1", "/^\\/users\\//"]);
      && IsExclusion(h, "/posts/1", list) == Success(true)
      && IsExclusion(h, "/users/42", list) == Success(true)
      && IsExclusion(h, "/comments/1", list) == Success(false)
  {
    var list := ["/posts/1", "/^\\/users\\//"];
    assert !IsRegexEntry(list[0]);
    assert IsRegexEntry(list[1]) && Interior(list[1]) == "^\\/users\\/";
    assert !SomeEntryMalformed(h, list);
    assert EntryMatches(h, list[0], "/posts/1");
    assert EntryMatches(h, list[1], "/users/42");
    assert !EntryMatches(h, list[0], "/comments/1");
    assert !EntryMatches(h, list[1], "/comments/1");
  }

}

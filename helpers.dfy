/** The formatting and validation helpers: text truncation, salary ranges, the e-mail shape
    check and slugs. */
module Helpers {
  import opened Wrappers
  import opened Seqs
  import opened Text

  // ----- truncateText -----

  /** The `maxLength` callers get when they pass none. */
  const DefaultMaxLength := 150

  /** `s.substring(0, n)`: a negative end counts as 0, one past the end as the end. */
  function Substring(s: string, n: int): (r: string)
    ensures r <= s
    ensures |r| == if n <= 0 then 0 else if n < |s| then n else |s|
  {
    if n <= 0 then "" else if n < |s| then s[..n] else s
  }

  /** `truncateText(text, maxLength)`: "" for missing or empty text, the text itself when it
      fits, and otherwise its first maxLength characters followed by "...". */
  function TruncateText(text: Option<string>, maxLength: int): (r: string)
    ensures text.None? || text.value == "" ==> r == ""
    ensures text.Some? && |text.value| <= maxLength ==> r == text.value
    ensures text.Some? && text.value != "" && |text.value| > maxLength ==>
      r == Substring(text.value, maxLength) + "..." && |r| == (if maxLength <= 0 then 0 else maxLength) + 3
  {
    if text.None? || text.value == "" then ""
    else if |text.value| <= maxLength then text.value
    else Substring(text.value, maxLength) + "..."
  }

  /** The result is never longer than the text and never longer than maxLength + 3. */
  lemma TruncateBound(text: Option<string>, maxLength: nat)
    ensures |TruncateText(text, maxLength)| <= maxLength + 3
    ensures text.Some? ==> |TruncateText(text, maxLength)| <= |text.value| + 2
  {
  }

  /** Truncating a second time with the same limit changes nothing. */
  lemma TruncateIdempotent(text: Option<string>, maxLength: int)
    ensures TruncateText(Some(TruncateText(text, maxLength)), maxLength) == TruncateText(text, maxLength)
  {
    var r := TruncateText(text, maxLength);
    if text.Some? && text.value != "" && |text.value| > maxLength {
      var cut := Substring(text.value, maxLength);
      assert |r| > maxLength;
      assert r[..|cut|] == cut;
      assert Substring(r, maxLength) == cut;
    }
  }

  // ----- formatSalary -----

  /** A number is truthy unless it is missing or zero. */
  predicate Truthy(n: Option<int>)
  {
    n.Some? && n.value != 0
  }

  /** `formatSalary(min, max)`, with `toLocaleString` as the parameter `show`. The branch for a
      falsy minimum prints the minimum: "Rs. 0" for a zero minimum, and a TypeError for a
      missing one, whatever the maximum is. */
  function FormatSalary(min: Option<int>, max: Option<int>, show: int -> string): (r: Outcome<string>)
    ensures !Truthy(min) && !Truthy(max) ==> r == Returned("Salary not specified")
    ensures r.Returned? && (Truthy(min) || Truthy(max)) ==> StartsWith(r.value, "Rs. ")
    ensures r.Threw? <==> min.None? && Truthy(max)
    ensures Truthy(min) && !Truthy(max) ==> r == Returned("Rs. " + show(min.value) + " +")
    ensures Truthy(min) && Truthy(max) ==> r == Returned("Rs. " + show(min.value) + " - Rs. " + show(max.value))
  {
    if !Truthy(min) && !Truthy(max) then Returned("Salary not specified")
    else if !Truthy(max) then Returned("Rs. " + show(min.value) + " +")
    else if !Truthy(min) then
      if min.None? then Threw("TypeError: cannot read properties of a missing value (reading 'toLocaleString')")
      else Returned("Rs. " + show(min.value))
    else Returned("Rs. " + show(min.value) + " - Rs. " + show(max.value))
  }

  /** In the branch for a zero minimum, the maximum does not reach the output: every nonzero
      maximum gives the same text. */
  lemma ZeroMinimumHidesMaximum(max1: int, max2: int, show: int -> string)
    requires max1 != 0 && max2 != 0
    ensures FormatSalary(Some(0), Some(max1), show) == FormatSalary(Some(0), Some(max2), show)
    ensures FormatSalary(Some(0), Some(max1), show) == Returned("Rs. " + show(0))
  {
  }

  // ----- validateEmail -----

  /** A character the pattern's `[^\s@]` class accepts. */
  predicate Plain(c: char)
  {
    c != '@' && !IsSpace(c)
  }

  predicate AllPlain(s: string)
  {
    forall k :: 0 <= k < |s| ==> Plain(s[k])
  }

  /** `s` splits into the shape `^[^\s@]+@[^\s@]+\.[^\s@]+$`. */
  predicate EmailParts(s: string, local: string, domain: string, top: string)
  {
    && |local| > 0 && |domain| > 0 && |top| > 0
    && AllPlain(local) && AllPlain(domain) && AllPlain(top)
    && s == local + "@" + domain + "." + top
  }

  /** The index of the first `c` in `s`, or |s| when there is none. */
  function IndexOf(s: string, c: char): (i: nat)
    ensures i <= |s|
    ensures i < |s| ==> s[i] == c
    ensures forall k :: 0 <= k < i ==> s[k] != c
    decreases |s|
  {
    if s == [] then 0
    else if s[0] == c then 0
    else 1 + IndexOf(s[1..], c)
  }

  /** The part after the `@`: plain characters with a dot that is neither first nor last. */
  predicate DottedDomain(r: string)
  {
    AllPlain(r) && exists k :: 0 < k < |r| - 1 && r[k] == '.'
  }

  /** The scan for `validateEmail`: a non-empty plain part, the first `@`, then a dotted
      domain. */
  predicate ScanAccepts(s: string)
  {
    var i := IndexOf(s, '@');
    0 < i < |s| && AllPlain(s[..i]) && DottedDomain(s[i + 1..])
  }

  /** `validateEmail(email)`: true exactly for the strings the pattern describes. */
  function ValidateEmail(s: string): (b: bool)
    ensures b <==> exists local, domain, top :: EmailParts(s, local, domain, top)
  {
    if ScanAccepts(s) then
      ScanFindsParts(s);
      true
    else
      PartsPassScan(s);
      false
  }

  /** What the scan accepts splits into the pattern's three parts. */
  lemma ScanFindsParts(s: string)
    requires ScanAccepts(s)
    ensures exists local, domain, top :: EmailParts(s, local, domain, top)
  {
    var i := IndexOf(s, '@');
    var r := s[i + 1..];
    var k :| 0 < k < |r| - 1 && r[k] == '.';
    var local, domain, top := s[..i], r[..k], r[k + 1..];
    assert AllPlain(domain) && AllPlain(top) by {
      assert forall p :: 0 <= p < |domain| ==> domain[p] == r[p];
      assert forall p :: 0 <= p < |top| ==> top[p] == r[k + 1 + p];
    }
    assert r == domain + "." + top;
    assert s == local + "@" + r;
    assert EmailParts(s, local, domain, top);
  }

  /** A string of the pattern's shape passes the scan. */
  lemma PartsPassScan(s: string)
    ensures (exists local, domain, top :: EmailParts(s, local, domain, top)) ==> ScanAccepts(s)
  {
    if exists local, domain, top :: EmailParts(s, local, domain, top) {
      var local, domain, top :| EmailParts(s, local, domain, top);
      PartsPassScanWith(s, local, domain, top);
    }
  }

  lemma PartsPassScanWith(s: string, local: string, domain: string, top: string)
    requires EmailParts(s, local, domain, top)
    ensures ScanAccepts(s)
  {
    assert s[|local|] == '@';
    assert forall k :: 0 <= k < |local| ==> s[k] == local[k];
    assert IndexOf(s, '@') == |local|;
    var r := s[|local| + 1..];
    assert s[..|local|] == local;
    assert r == domain + "." + top;
    assert r[|domain|] == '.';
    forall p | 0 <= p < |r| ensures Plain(r[p]) {
      if p < |domain| {
        assert r[p] == domain[p];
      } else if p > |domain| {
        assert r[p] == top[p - |domain| - 1];
      }
    }
    assert DottedDomain(r);
  }

  /** An address the check accepts has exactly one `@`. */
  lemma EmailHasOneAt(s: string)
    requires ValidateEmail(s)
    ensures exists i :: 0 <= i < |s| && s[i] == '@' && forall k :: 0 <= k < |s| && k != i ==> s[k] != '@'
  {
    var local, domain, top :| EmailParts(s, local, domain, top);
    var i := |local|;
    assert s[i] == '@';
    forall k | 0 <= k < |s| && k != i ensures s[k] != '@' {
      if k < i {
        assert s[k] == local[k];
      } else if k < i + 1 + |domain| {
        assert s[k] == domain[k - i - 1];
      } else if k > i + 1 + |domain| {
        assert s[k] == top[k - i - 2 - |domain|];
      }
    }
  }

  // ----- generateSlug -----

  /** A character `[a-z0-9]` matches. */
  predicate IsSlugChar(c: char)
  {
    'a' <= c <= 'z' || '0' <= c <= '9'
  }

  /** The length of the run of `p`-characters at the start of `s`. */
  function LeadingRun(s: string, p: char -> bool): (n: nat)
    ensures 0 < |s| && p(s[0]) ==> n > 0
    ensures n <= |s|
    decreases |s|
  {
    if s != [] && p(s[0]) then 1 + LeadingRun(s[1..], p) else 0
  }

  /** `s.replace(/<p>+/g, rep)`: each maximal run of `p`-characters becomes `rep`. */
  function ReplaceRuns(s: string, p: char -> bool, rep: string): string
    decreases |s|
  {
    if s == [] then ""
    else if p(s[0]) then rep + ReplaceRuns(s[LeadingRun(s, p)..], p, rep)
    else [s[0]] + ReplaceRuns(s[1..], p, rep)
  }

  /** A pattern that matches no character of `s` leaves it unchanged. */
  lemma {:induction false} ReplaceRunsNoMatch(s: string, p: char -> bool, rep: string)
    requires forall k :: 0 <= k < |s| ==> !p(s[k])
    ensures ReplaceRuns(s, p, rep) == s
    decreases |s|
  {
    if s != [] {
      ReplaceRunsNoMatch(s[1..], p, rep);
      assert s == [s[0]] + s[1..];
    }
  }

  /** `generateSlug(title)`, step by step as written. */
  function GenerateSlug(title: string): (r: string)
    ensures forall k :: 0 <= k < |r| ==> IsSlugChar(r[k])
    ensures |r| <= |title|
  {
    var kept := Filter(Lower(title), IsSlugChar);
    var dashed := ReplaceRuns(kept, IsSpace, "-");
    var collapsed := ReplaceRuns(dashed, c => c == '-', "-");
    SlugReplacesAreDead(title);
    collapsed
  }

  /** The second and third replacements never match: after the first, no white space and no
      dash is left, so the slug is just the `[a-z0-9]` characters of the lower-cased title. */
  lemma SlugReplacesAreDead(title: string)
    ensures var kept := Filter(Lower(title), IsSlugChar);
            ReplaceRuns(ReplaceRuns(kept, IsSpace, "-"), c => c == '-', "-") == kept
  {
    var kept := Filter(Lower(title), IsSlugChar);
    assert forall k :: 0 <= k < |kept| ==> kept[k] in kept;
    ReplaceRunsNoMatch(kept, IsSpace, "-");
    ReplaceRunsNoMatch(kept, c => c == '-', "-");
  }

  /** Every `[a-z0-9]` character of the lower-cased title survives, in order. */
  lemma SlugKeepsSlugChars(title: string, c: char)
    ensures c in GenerateSlug(title) <==> c in Lower(title) && IsSlugChar(c)
  {
    SlugReplacesAreDead(title);
  }

  /** Making a slug of a slug changes nothing. */
  lemma SlugIdempotent(title: string)
    ensures GenerateSlug(GenerateSlug(title)) == GenerateSlug(title)
  {
    var r := GenerateSlug(title);
    assert Lower(r) == r;
    assert forall x :: x in r ==> IsSlugChar(x);
    FilterKeepsAll(r, IsSlugChar);
    SlugReplacesAreDead(r);
  }
}

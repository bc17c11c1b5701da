/** The shop's pure helpers: slugs, cart total, shipping, tax, truncation and the e-mail and
    phone recognisers. Amounts are whole numbers. */
module Helpers {
  import opened Text
  import opened Types
  import opened Wrappers
  import Seqs

  // ----- Slugs -------------------------------------------------------------------------

  /** `\w` without the `u` flag: ASCII letters, digits and `_`. */
  predicate IsWordChar(c: char) { IsLowerAlpha(c) || IsUpperAlpha(c) || IsDigit(c) || c == '_' }

  /** What `replace(/[^\w\s-]/g, '')` keeps. */
  predicate IsKeptSlugChar(c: char) { IsWordChar(c) || IsWhitespace(c) || c == '-' }

  /** The class `[\s_-]`. */
  predicate IsSlugSeparator(c: char) { IsWhitespace(c) || c == '_' || c == '-' }

  predicate IsSlugChar(c: char) { IsLowerAlpha(c) || IsDigit(c) || c == '-' }

  predicate NoDoubleDash(s: string) {
    forall i :: 0 <= i < |s| - 1 ==> !(s[i] == '-' && s[i + 1] == '-')
  }

  /** A well-formed slug: lower-case ASCII letters, digits and `-`, with no `-` at either end
      and never two in a row. */
  predicate IsSlug(s: string) {
    && (forall i :: 0 <= i < |s| ==> IsSlugChar(s[i]))
    && NoDoubleDash(s)
    && (s != [] ==> s[0] != '-' && s[|s| - 1] != '-')
  }

  /** `s.replace(/[sep]+/g, '-')` for a character class `sep` containing `-`: every maximal
      run of separator characters becomes one `-`; other characters are kept. */
  function CollapseRuns(s: string, sep: char -> bool): (r: string)
    requires sep('-')
    ensures forall i :: 0 <= i < |r| ==> r[i] == '-' || (r[i] in s && !sep(r[i]))
    ensures NoDoubleDash(r)
    ensures s != [] ==> r != [] && (r[0] == '-' <==> sep(s[0]))
    decreases |s|
  {
    if s == [] then []
    else if sep(s[0]) then "-" + CollapseRuns(s[Seqs.LeadingRun(s, sep)..], sep)
    else [s[0]] + CollapseRuns(s[1..], sep)
  }

  /** A string whose separators are single dashes between other characters is its own
      collapse. */
  lemma {:induction false} CollapseRunsFixed(s: string, sep: char -> bool)
    requires sep('-')
    requires forall i :: 0 <= i < |s| ==> s[i] == '-' || !sep(s[i])
    requires NoDoubleDash(s)
    ensures CollapseRuns(s, sep) == s
    decreases |s|
  {
    if s != [] {
      var rest := s[1..];
      assert NoDoubleDash(rest) by {
        forall i | 0 <= i < |rest| - 1 ensures !(rest[i] == '-' && rest[i + 1] == '-') {
          assert rest[i] == s[i + 1] && rest[i + 1] == s[i + 2];
        }
      }
      if sep(s[0]) {
        assert s[0] == '-';
        if rest != [] {
          assert rest[0] == s[1];
          assert !sep(rest[0]);
        }
        assert Seqs.LeadingRun(s, sep) == 1;
      }
      CollapseRunsFixed(rest, sep);
      assert s == [s[0]] + rest;
    }
  }

  /** Characters outside the class are copied through one by one: a word without class
      characters comes out unchanged in front of the collapse of what follows it. */
  lemma {:induction false} CollapseKeepsWord(w: string, rest: string, sep: char -> bool)
    requires sep('-')
    requires forall i :: 0 <= i < |w| ==> !sep(w[i])
    ensures CollapseRuns(w + rest, sep) == w + CollapseRuns(rest, sep)
    decreases |w|
  {
    if w == [] {
      assert w + rest == rest;
    } else {
      var s := w + rest;
      var c, more := w[0], w[1..];
      assert s[0] == c && s[1..] == more + rest;
      assert forall i :: 0 <= i < |more| ==> more[i] == w[i + 1];
      calc {
        CollapseRuns(s, sep);
        { CollapseCopiesHead(s, sep); }
        [c] + CollapseRuns(more + rest, sep);
        { CollapseKeepsWord(more, rest, sep); }
        [c] + (more + CollapseRuns(rest, sep));
        { SeqAssoc([c], more, CollapseRuns(rest, sep)); }
        ([c] + more) + CollapseRuns(rest, sep);
        { assert [c] + more == w; }
        w + CollapseRuns(rest, sep);
      }
    }
  }

  lemma SeqAssoc(a: string, b: string, c: string)
    ensures a + (b + c) == (a + b) + c
  {
  }

  lemma CollapseCopiesHead(s: string, sep: char -> bool)
    requires sep('-') && s != [] && !sep(s[0])
    ensures CollapseRuns(s, sep) == [s[0]] + CollapseRuns(s[1..], sep)
  {
  }

  /** A whole run of class characters, up to the next character outside the class, becomes
      one dash. */
  lemma CollapseMergesRun(run: string, rest: string, sep: char -> bool)
    requires sep('-')
    requires run != [] && forall i :: 0 <= i < |run| ==> sep(run[i])
    requires rest == [] || !sep(rest[0])
    ensures CollapseRuns(run + rest, sep) == "-" + CollapseRuns(rest, sep)
  {
    var s := run + rest;
    Seqs.LeadingRunOfRun(run, rest, sep);
    assert s[|run|..] == rest;
  }

  /** The length of the run of dashes `s` starts with. */
  function LeadingDashes(s: string): (n: nat)
    ensures n <= |s|
    ensures forall i :: 0 <= i < n ==> s[i] == '-'
    ensures n < |s| ==> s[n] != '-'
    decreases |s|
  {
    if s != [] && s[0] == '-' then 1 + LeadingDashes(s[1..]) else 0
  }

  /** The length of the run of dashes `s` ends with. */
  function TrailingDashes(s: string): (n: nat)
    ensures n <= |s|
    ensures forall i :: |s| - n <= i < |s| ==> s[i] == '-'
    ensures n < |s| ==> s[|s| - 1 - n] != '-'
    decreases |s|
  {
    if s != [] && s[|s| - 1] == '-' then 1 + TrailingDashes(s[..|s| - 1]) else 0
  }

  /** `replace(/^-+|-+$/g, '')`: the middle of `s` left after removing the run of dashes at
      its front and the run at its back. */
  function StripDashes(s: string): (r: string)
    ensures r == [] || (r[0] != '-' && r[|r| - 1] != '-')
    ensures LeadingDashes(s) + |r| <= |s|
    ensures r == s[LeadingDashes(s)..LeadingDashes(s) + |r|]
    ensures forall i :: LeadingDashes(s) + |r| <= i < |s| ==> s[i] == '-'
  {
    var a := LeadingDashes(s);
    var middle := s[a..];
    var r := middle[..|middle| - TrailingDashes(middle)];
    assert r == s[a..a + |r|];
    assert forall i :: a + |r| <= i < |s| ==> s[i] == middle[i - a];
    r
  }

  /** A string that neither starts nor ends with a dash is left as it is. */
  lemma StripDashesNoEdgeDash(s: string)
    requires s == [] || (s[0] != '-' && s[|s| - 1] != '-')
    ensures StripDashes(s) == s
  {
    if s != [] {
      assert LeadingDashes(s) == 0;
    }
  }

  /** `generateSlug`: lower-case, trim, drop characters outside `[\w\s-]`, turn each run of
      `[\s_-]` into one `-`, then strip dashes from both ends. */
  function GenerateSlug(text: string): (r: string)
    ensures IsSlug(r)
  {
    var trimmed := Trim(ToLower(text));
    var dashed := CollapseRuns(Seqs.Filter(trimmed, IsKeptSlugChar), IsSlugSeparator);
    TrimmedHasNoUpper(text);
    CollapsedAlphabet(trimmed);
    StripKeepsSlugShape(dashed);
    StripDashes(dashed)
  }

  predicate NoUpper(s: string) { forall i :: 0 <= i < |s| ==> !IsUpperAlpha(s[i]) }

  /** A slice of a string without upper-case letters has none either. */
  lemma SliceNoUpper(s: string, a: nat, b: nat)
    requires a <= b <= |s| && NoUpper(s)
    ensures NoUpper(s[a..b])
  {
    assert forall i :: 0 <= i < b - a ==> s[a..b][i] == s[a + i];
  }

  /** Lower-casing and trimming leave no upper-case ASCII letter. */
  lemma TrimmedHasNoUpper(text: string)
    ensures NoUpper(Trim(ToLower(text)))
  {
    var lowered := ToLower(text);
    assert NoUpper(lowered);
    var start := TrimStart(lowered);
    SliceNoUpper(lowered, |lowered| - |start|, |lowered|);
    SliceNoUpper(start, 0, |TrimEnd(start)|);
  }

  /** Keeping `[\w\s-]` and collapsing `[\s_-]` runs of a string without upper-case letters
      leaves only slug characters. */
  lemma CollapsedAlphabet(trimmed: string)
    requires NoUpper(trimmed)
    ensures var dashed := CollapseRuns(Seqs.Filter(trimmed, IsKeptSlugChar), IsSlugSeparator);
      forall i :: 0 <= i < |dashed| ==> IsSlugChar(dashed[i])
  {
    var kept := Seqs.Filter(trimmed, IsKeptSlugChar);
    var dashed := CollapseRuns(kept, IsSlugSeparator);
    forall i | 0 <= i < |dashed| ensures IsSlugChar(dashed[i]) {
      var c := dashed[i];
      if c != '-' {
        assert c in kept && !IsSlugSeparator(c);
        assert c in trimmed && IsKeptSlugChar(c);
        var j :| 0 <= j < |trimmed| && trimmed[j] == c;
        assert !IsUpperAlpha(c);
      }
    }
  }

  /** A string of slug characters without doubled dashes keeps both properties in any slice. */
  lemma SliceSlugShape(s: string, a: nat, b: nat)
    requires a <= b <= |s|
    requires forall i :: 0 <= i < |s| ==> IsSlugChar(s[i])
    requires NoDoubleDash(s)
    ensures forall i :: 0 <= i < b - a ==> IsSlugChar(s[a..b][i])
    ensures NoDoubleDash(s[a..b])
  {
    assert forall i :: 0 <= i < b - a ==> s[a..b][i] == s[a + i];
  }

  /** Stripping the dashes at both ends of a dash-collapsed string of slug characters gives a
      slug. */
  lemma StripKeepsSlugShape(s: string)
    requires forall i :: 0 <= i < |s| ==> IsSlugChar(s[i])
    requires NoDoubleDash(s)
    ensures IsSlug(StripDashes(s))
  {
    var a := LeadingDashes(s);
    SliceSlugShape(s, a, a + |StripDashes(s)|);
  }

  /** Lower-casing changes nothing in a string without upper-case letters. */
  lemma ToLowerFixed(s: string)
    requires NoUpper(s)
    ensures ToLower(s) == s
  {
    assert forall i :: 0 <= i < |s| ==> ToLower(s)[i] == s[i];
  }

  /** Trimming changes nothing in a string that neither starts nor ends with whitespace. */
  lemma TrimFixed(s: string)
    requires s != [] ==> !IsWhitespace(s[0]) && !IsWhitespace(s[|s| - 1])
    ensures Trim(s) == s
  {
    assert TrimStart(s) == s;
  }

  /** Lower-casing, trimming and keeping `[\w\s-]` leave a slug unchanged. */
  lemma SlugSurvivesCleaning(s: string)
    requires IsSlug(s)
    ensures Seqs.Filter(Trim(ToLower(s)), IsKeptSlugChar) == s
  {
    ToLowerFixed(s);
    if s != [] {
      assert IsSlugChar(s[0]) && IsSlugChar(s[|s| - 1]);
    }
    TrimFixed(s);
    Seqs.FilterAll(s, IsKeptSlugChar);
  }

  /** A slug character is `-` or no separator. */
  lemma SlugCharIsNoSeparator(c: char)
    requires IsSlugChar(c)
    ensures c == '-' || !IsSlugSeparator(c)
  {
  }

  /** Collapsing separator runs changes nothing in a slug. */
  lemma SlugCollapseFixed(s: string)
    requires IsSlug(s)
    ensures CollapseRuns(s, IsSlugSeparator) == s
  {
    forall i | 0 <= i < |s| ensures s[i] == '-' || !IsSlugSeparator(s[i]) {
      SlugCharIsNoSeparator(s[i]);
    }
    CollapseRunsFixed(s, IsSlugSeparator);
  }

  /** Stripping end dashes changes nothing in a slug. */
  lemma SlugStripFixed(s: string)
    requires IsSlug(s)
    ensures StripDashes(s) == s
  {
    StripDashesNoEdgeDash(s);
  }

  /** A slug is its own slug. */
  lemma GenerateSlugFixed(s: string)
    requires IsSlug(s)
    ensures GenerateSlug(s) == s
  {
    var kept := Seqs.Filter(Trim(ToLower(s)), IsKeptSlugChar);
    SlugSurvivesCleaning(s);
    assert kept == s;
    SlugCollapseFixed(s);
    SlugStripFixed(s);
    assert GenerateSlug(s) == StripDashes(CollapseRuns(kept, IsSlugSeparator));
  }

  /** `generateSlug(generateSlug(t)) == generateSlug(t)`. */
  lemma GenerateSlugIdempotent(text: string)
    ensures GenerateSlug(GenerateSlug(text)) == GenerateSlug(text)
  {
    GenerateSlugFixed(GenerateSlug(text));
  }

  /** A non-empty word of lower-case ASCII letters and digits. */
  predicate IsSlugWord(w: string) {
    w != [] && forall i :: 0 <= i < |w| ==> IsLowerAlpha(w[i]) || IsDigit(w[i])
  }

  /** A non-empty run of `[\s_-]` characters. */
  predicate IsSeparatorRun(sp: string) {
    sp != [] && forall i :: 0 <= i < |sp| ==> IsSlugSeparator(sp[i])
  }

  /** Lower-casing, trimming and keeping `[\w\s-]` leave two words around a separator run
      unchanged. */
  lemma TwoWordsSurviveCleaning(w1: string, sp: string, w2: string)
    requires IsSlugWord(w1) && IsSeparatorRun(sp) && IsSlugWord(w2)
    ensures Seqs.Filter(Trim(ToLower(w1 + sp + w2)), IsKeptSlugChar) == w1 + sp + w2
  {
    var t := w1 + sp + w2;
    assert forall i :: 0 <= i < |t| ==> t[i] in w1 || t[i] in sp || t[i] in w2;
    assert NoUpper(t);
    ToLowerFixed(t);
    assert t[0] == w1[0] && t[|t| - 1] == w2[|w2| - 1];
    TrimFixed(t);
    Seqs.FilterAll(t, IsKeptSlugChar);
  }

  /** A run of class characters between two words without class characters collapses to
      one dash. */
  lemma CollapseJoinsWords(w1: string, sp: string, w2: string, sep: char -> bool)
    requires sep('-')
    requires forall i :: 0 <= i < |w1| ==> !sep(w1[i])
    requires sp != [] && forall i :: 0 <= i < |sp| ==> sep(sp[i])
    requires forall i :: 0 <= i < |w2| ==> !sep(w2[i])
    ensures CollapseRuns(w1 + sp + w2, sep) == w1 + "-" + w2
  {
    SeqAssoc(w1, sp, w2);
    CollapseKeepsWord(w1, sp + w2, sep);
    CollapseRunThenWord(sp, w2, sep);
    SeqAssoc(w1, "-", w2);
  }

  lemma CollapseRunThenWord(sp: string, w: string, sep: char -> bool)
    requires sep('-')
    requires sp != [] && forall i :: 0 <= i < |sp| ==> sep(sp[i])
    requires forall i :: 0 <= i < |w| ==> !sep(w[i])
    ensures CollapseRuns(sp + w, sep) == "-" + w
  {
    CollapseMergesRun(sp, w, sep);
    WordCollapseFixed(w, sep);
  }

  lemma WordCollapseFixed(w: string, sep: char -> bool)
    requires sep('-')
    requires forall i :: 0 <= i < |w| ==> !sep(w[i])
    ensures CollapseRuns(w, sep) == w
  {
    assert forall i :: 0 <= i < |w| ==> w[i] != '-';
    CollapseRunsFixed(w, sep);
  }

  lemma SlugWordHasNoSeparator(w: string)
    requires IsSlugWord(w)
    ensures forall i :: 0 <= i < |w| ==> !IsSlugSeparator(w[i])
  {
  }

  /** `generateSlug` joins two words separated by spaces, `_` or `-` with a single dash. */
  lemma GenerateSlugJoinsWords(w1: string, sp: string, w2: string)
    requires IsSlugWord(w1) && IsSeparatorRun(sp) && IsSlugWord(w2)
    ensures GenerateSlug(w1 + sp + w2) == w1 + "-" + w2
  {
    TwoWordsSurviveCleaning(w1, sp, w2);
    SlugWordHasNoSeparator(w1);
    SlugWordHasNoSeparator(w2);
    CollapseJoinsWords(w1, sp, w2, IsSlugSeparator);
    var dashed := w1 + "-" + w2;
    assert dashed[0] == w1[0] && dashed[|dashed| - 1] == w2[|w2| - 1];
    StripDashesNoEdgeDash(dashed);
  }

  /** A non-empty word of ASCII letters of either case and digits. */
  predicate IsAlnumWord(w: string) {
    w != [] && forall i :: 0 <= i < |w| ==> IsLowerAlpha(w[i]) || IsUpperAlpha(w[i]) || IsDigit(w[i])
  }

  /** Lower-casing an ASCII word gives a slug word. */
  lemma LowerAlnumWord(w: string)
    requires IsAlnumWord(w)
    ensures IsSlugWord(ToLower(w))
  {
  }

  /** Lower-casing works character by character, so it distributes over concatenation. */
  lemma ToLowerConcat(a: string, b: string)
    ensures ToLower(a + b) == ToLower(a) + ToLower(b)
  {
    assert forall i :: 0 <= i < |a + b| ==> ToLower(a + b)[i] == (ToLower(a) + ToLower(b))[i];
  }

  /** `generateSlug` lower-cases first, so text and its lower-cased form have the same slug. */
  lemma GenerateSlugOfLowered(text: string)
    ensures GenerateSlug(text) == GenerateSlug(ToLower(text))
  {
    ToLowerFixed(ToLower(text));
  }

  /** Two ASCII words of any case separated by spaces, `_` or `-` become the two words in
      lower case joined by a single dash (`'Mango Pickle'` gives `'mango-pickle'`). */
  lemma GenerateSlugJoinsCasedWords(w1: string, sp: string, w2: string)
    requires IsAlnumWord(w1) && IsSeparatorRun(sp) && IsAlnumWord(w2)
    ensures GenerateSlug(w1 + sp + w2) == ToLower(w1) + "-" + ToLower(w2)
  {
    ToLowerConcat(w1 + sp, w2);
    ToLowerConcat(w1, sp);
    assert forall i :: 0 <= i < |sp| ==> !IsUpperAlpha(sp[i]);
    ToLowerFixed(sp);
    LowerAlnumWord(w1);
    LowerAlnumWord(w2);
    GenerateSlugOfLowered(w1 + sp + w2);
    GenerateSlugJoinsWords(ToLower(w1), sp, ToLower(w2));
  }

  // ----- Money -------------------------------------------------------------------------

  /** `calculateCartTotal`: the sum of price times quantity over the lines. */
  function CalculateCartTotal(items: seq<CartItem>): (total: int)
    ensures (forall i :: 0 <= i < |items| ==> items[i].price >= 0 && items[i].quantity >= 0) ==> total >= 0
  {
    if items == [] then 0
    else items[0].price * items[0].quantity + CalculateCartTotal(items[1..])
  }

  /** The total of two carts laid end to end is the sum of their totals; with the one-line
      case, this makes the total the plain sum of price times quantity. */
  lemma {:induction false} CartTotalConcat(a: seq<CartItem>, b: seq<CartItem>)
    ensures CalculateCartTotal(a + b) == CalculateCartTotal(a) + CalculateCartTotal(b)
  {
    if a == [] {
      assert a + b == b;
    } else {
      assert (a + b)[1..] == a[1..] + b;
      CartTotalConcat(a[1..], b);
    }
  }

  /** An empty cart totals 0 and a one-line cart totals its price times its quantity. */
  lemma CartTotalBase(item: CartItem)
    ensures CalculateCartTotal([]) == 0
    ensures CalculateCartTotal([item]) == item.price * item.quantity
  {
    assert [item][1..] == [];
  }

  const FreeShippingThreshold: int := 2000
  const DefaultZone: string := "local"

  /** The zones the rate table of `calculateShipping` names. */
  const ShippingZones: set<string> := {"local", "metro", "national"}

  /** The rate table of `calculateShipping`; a zone outside it has no rate. No known zone is
      cheaper than the 50 charged for a zone the table does not know. */
  function ZoneRate(zone: string): (rate: Option<int>)
    ensures rate.Some? <==> zone in ShippingZones
    ensures rate.Some? ==> 50 <= rate.value
  {
    if zone == "local" then Some(50)
    else if zone == "metro" then Some(100)
    else if zone == "national" then Some(150)
    else None
  }

  /** `calculateShipping`: free from 2000 upwards, otherwise the zone's rate, and 50 for a
      zone the table does not know. */
  function CalculateShipping(total: int, zone: string): (fee: int)
    ensures total >= FreeShippingThreshold <==> fee == 0
    ensures total < FreeShippingThreshold ==>
      fee == (if zone == "metro" then 100 else if zone == "national" then 150 else 50)
  {
    if total >= FreeShippingThreshold then 0
    else ZoneRate(zone).GetOr(50)
  }

  /** In any one zone, a larger order never pays more shipping. */
  lemma ShippingNonIncreasing(t1: int, t2: int, zone: string)
    requires t1 <= t2
    ensures CalculateShipping(t2, zone) <= CalculateShipping(t1, zone)
  {
  }

  /** `calculateTax`: 5% of the subtotal rounded to the nearest whole number, halves up
      (`Math.round(subtotal * 0.05)` on exact arithmetic). */
  function CalculateTax(subtotal: int): (tax: int)
    ensures 20 * tax - 10 <= subtotal < 20 * tax + 10
  {
    (subtotal + 10) / 20
  }

  /** The rounded tax is the only whole number within half a unit of 5% (ties going up). */
  lemma TaxIsNearest(subtotal: int, t: int)
    requires 20 * t - 10 <= subtotal < 20 * t + 10
    ensures t == CalculateTax(subtotal)
  {
  }

  /** Where `text.slice(0, end)` stops: a negative end counts back from the length. */
  function SliceEnd(length: nat, end: int): (e: nat)
    ensures e <= length
    ensures 0 <= end ==> e == if end < length then end else length
    ensures end < 0 && -end <= length ==> e + -end == length
    ensures end < 0 && -end > length ==> e == 0
  {
    if end < 0 then (if length + end < 0 then 0 else length + end)
    else if end < length then end else length
  }

  /** `truncateText`. */
  function TruncateText(text: string, maxLength: int): (r: string)
    ensures |text| <= maxLength ==> r == text
    ensures 0 <= maxLength < |text| ==>
      |r| == maxLength + 3 && r[..maxLength] == text[..maxLength] && r[maxLength..] == "..."
    ensures maxLength < 0 ==> r == text[..SliceEnd(|text|, maxLength)] + "..."
  {
    if |text| <= maxLength then text
    else text[..SliceEnd(|text|, maxLength)] + "..."
  }

  // ----- Recognisers -------------------------------------------------------------------

  /** `[^\s@]`. */
  predicate IsEmailChar(c: char) { !IsWhitespace(c) && c != '@' }

  predicate AllEmailChars(s: string) { forall i :: 0 <= i < |s| ==> IsEmailChar(s[i]) }

  /** `/^[^\s@]+@[^\s@]+\.[^\s@]+$/.test(email)`: a non-empty run, `@`, a non-empty run, `.`,
      a non-empty run, with the runs free of whitespace and `@`. */
  function IsValidEmail(email: string): (ok: bool)
    ensures ok ==> 5 <= |email| && IsEmailChar(email[0]) && IsEmailChar(email[|email| - 1])
  {
    exists at, dot | 0 < at < dot < |email| - 1 ::
      at + 1 < dot && email[at] == '@' && email[dot] == '.' &&
      AllEmailChars(email[..at]) && AllEmailChars(email[at + 1..dot]) &&
      AllEmailChars(email[dot + 1..])
  }

  /** The shape of an address: no whitespace, exactly one `@` with something before it, and
      a `.` after it with at least one character on each side. */
  predicate EmailShape(email: string) {
    && NoWhitespace(email)
    && exists at | 0 < at < |email| ::
      && email[at] == '@'
      && (forall i :: 0 <= i < |email| && i != at ==> email[i] != '@')
      && exists d | at + 1 < d < |email| - 1 :: email[d] == '.'
  }

  /** An address the regular expression accepts has the shape. */
  lemma EmailValidHasShape(email: string)
    requires IsValidEmail(email)
    ensures EmailShape(email)
  {
    var at, dot :| 0 < at < dot < |email| - 1 && at + 1 < dot && email[at] == '@' &&
      email[dot] == '.' && AllEmailChars(email[..at]) &&
      AllEmailChars(email[at + 1..dot]) && AllEmailChars(email[dot + 1..]);
    forall i | 0 <= i < |email| && i != at && i != dot
      ensures IsEmailChar(email[i])
    {
      if i < at {
        assert email[..at][i] == email[i];
      } else if i < dot {
        assert email[at + 1..dot][i - at - 1] == email[i];
      } else {
        assert email[dot + 1..][i - dot - 1] == email[i];
      }
    }
    assert NoWhitespace(email);
    assert forall i :: 0 <= i < |email| && i != at ==> email[i] != '@';
    assert at + 1 < dot < |email| - 1 && email[dot] == '.';
  }

  /** An address of that shape is accepted by the regular expression. */
  lemma EmailShapeIsValid(email: string)
    requires EmailShape(email)
    ensures IsValidEmail(email)
  {
    var at :| 0 < at < |email| && email[at] == '@' &&
      (forall i :: 0 <= i < |email| && i != at ==> email[i] != '@') &&
      exists d | at + 1 < d < |email| - 1 :: email[d] == '.';
    var dot :| at + 1 < dot < |email| - 1 && email[dot] == '.';
    assert AllEmailChars(email[..at]);
    assert AllEmailChars(email[at + 1..dot]);
    assert AllEmailChars(email[dot + 1..]);
  }

  /** The regular expression accepts exactly the addresses of that shape. */
  lemma EmailIff(email: string)
    ensures IsValidEmail(email) <==> EmailShape(email)
  {
    if IsValidEmail(email) {
      EmailValidHasShape(email);
    }
    if EmailShape(email) {
      EmailShapeIsValid(email);
    }
  }

  /** `/^[6-9]\d{9}$/.test(phone.replace(/\s+/g, ''))`. An accepted number has at least ten
      characters, and every one of them is a digit or whitespace. */
  function IsValidPhone(phone: string): (ok: bool)
    ensures ok ==> 10 <= |phone|
    ensures ok ==> forall i :: 0 <= i < |phone| ==> IsWhitespace(phone[i]) || IsDigit(phone[i])
  {
    var digits := RemoveWhitespace(phone);
    |digits| == 10 && '6' <= digits[0] <= '9' && AllDigits(digits)
  }

  /** Removing whitespace from a string of whitespace leaves nothing. */
  lemma {:induction false} RemoveAllWhitespace(w: string)
    requires forall i :: 0 <= i < |w| ==> IsWhitespace(w[i])
    ensures RemoveWhitespace(w) == []
  {
    var fw := Seqs.Filter(w, IsNotWhitespace);
    if fw != [] {
      assert fw[0] in fw;
    }
  }

  /** Whitespace anywhere in a phone number does not change whether it is accepted. */
  lemma PhoneIgnoresWhitespace(a: string, w: string, b: string)
    requires forall i :: 0 <= i < |w| ==> IsWhitespace(w[i])
    ensures IsValidPhone(a + w + b) <==> IsValidPhone(a + b)
  {
    RemoveWhitespaceConcat(a + w, b);
    RemoveWhitespaceConcat(a, w);
    RemoveWhitespaceConcat(a, b);
    RemoveAllWhitespace(w);
    assert RemoveWhitespace(a) + [] == RemoveWhitespace(a);
  }

  /** For a string of digits, the phone check is: ten digits, the first of them 6 to 9. */
  lemma PhoneOfDigits(s: string)
    requires AllDigits(s)
    ensures IsValidPhone(s) <==> |s| == 10 && '6' <= s[0] <= '9'
  {
    RemoveWhitespaceKeepsClean(s);
  }

  /** Ten digits starting with 6 to 9 make a valid phone number. */
  lemma PhoneAcceptsTenDigits(s: string)
    requires AllDigits(s) && |s| == 10 && '6' <= s[0] <= '9'
    ensures IsValidPhone(s)
  {
    PhoneOfDigits(s);
  }

  lemma PhoneAcceptsMobileNumber()
    ensures IsValidPhone("9876543210")
  {
    PhoneAcceptsTenDigits("9876543210");
  }

  lemma PhoneAcceptsLeadingEight()
    ensures IsValidPhone("8123456789")
  {
    PhoneAcceptsTenDigits("8123456789");
  }

  lemma PhoneRejectsLeadingOne()
    ensures !IsValidPhone("1234567890")
  {
    var s := "1234567890";
    assert AllDigits(s);
    PhoneOfDigits(s);
  }

  lemma PhoneRejectsNineDigits()
    ensures !IsValidPhone("987654321")
  {
    var s := "987654321";
    assert AllDigits(s);
    PhoneOfDigits(s);
  }

  lemma PhoneRejectsElevenDigits()
    ensures !IsValidPhone("98765432100")
  {
    var s := "98765432100";
    assert AllDigits(s);
    PhoneOfDigits(s);
  }

  lemma EmailAcceptsPlainAddress()
    ensures IsValidEmail("test@example.com")
  {
    var e := "test@example.com";
    assert e[4] == '@' && e[12] == '.';
    assert AllEmailChars(e[..4]);
    assert AllEmailChars(e[5..12]);
    assert AllEmailChars(e[13..]);
  }

  /** A domain with a second dot is accepted too. */
  lemma EmailAcceptsCountryDomain()
    ensures IsValidEmail("user@domain.co.in")
  {
    var e := "user@domain.co.in";
    assert e[4] == '@' && e[11] == '.';
    assert AllEmailChars(e[..4]);
    assert AllEmailChars(e[5..11]);
    assert AllEmailChars(e[12..]);
  }

  /** `test@` has no dot after the `@`. */
  lemma EmailRejectsMissingDomain()
    ensures !IsValidEmail("test@")
  {
    var e := "test@";
    forall dot | 0 <= dot < |e| - 1 ensures e[dot] != '.' {
    }
  }

  /** `@domain.com` has nothing before the `@`. */
  lemma EmailRejectsMissingLocalPart()
    ensures !IsValidEmail("@domain.com")
  {
    var e := "@domain.com";
    forall at | 0 < at < |e| ensures e[at] != '@' {
    }
  }

  /** `invalid-email` has no `@`. */
  lemma EmailRejectsMissingAt()
    ensures !IsValidEmail("invalid-email")
  {
    var e := "invalid-email";
    forall at | 0 <= at < |e| ensures e[at] != '@' {
    }
  }
}

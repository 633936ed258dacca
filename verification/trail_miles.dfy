/** Reading a track's mile marker (mapcontroller.js, `getDisplayMile` and
    `getMileForSorting`). Miles count northbound from the Mexican border;
    a southbound listing shows the distance still to go to the trail's
    northern end instead. A mile written with a leading `~` is an estimate. */
module TrailMiles {
  import opened JsValues
  import opened Modes

  /** The northbound mile of the trail's northern terminus. */
  const TrailLength: real := 2655.8

  /** `getMileForSorting`: `null` for a missing or "n/a" mile, otherwise
      `parseFloat` of the mile with a leading `~` stripped (which may be NaN). */
  function MileForSorting(m: MileField): (r: Option<Number>)
    ensures r.None? <==> m == Absent || m == Text("") || m == Numeric(0.0) || IsNotApplicable(m)
    ensures m.Numeric? && m.x != 0.0 ==> r == Some(Finite(m.x))
  {
    if !Truthy(m) || IsNotApplicable(m) then None
    else if StartsWithTilde(m) then Some(ParseFloat(m.text[1..]))
    else Some(ParseMile(m))
  }

  /** The mile counts as present for ordering: neither `null` nor NaN. */
  predicate HasSortMile(m: MileField)
  {
    MileForSorting(m).Some? && MileForSorting(m).value.Finite?
  }

  /** The ordering mile of a field that has one (0 for the others, never used). */
  function SortMile(m: MileField): real
  {
    if HasSortMile(m) then MileForSorting(m).value.value else 0.0
  }

  /** An estimated mile `~n` sorts exactly where the plain mile `n` does. */
  lemma EstimatedMileSortsAsItsValue(n: nat)
    ensures MileForSorting(Text("~" + NatText(n))) == Some(Finite(n as real))
    ensures MileForSorting(Text(NatText(n))) == Some(Finite(n as real))
  {
    PlainMileSortsAsItsValue(n);
    var s := NatText(n);
    var e := "~" + s;
    assert e[0] == '~' && e[1..] == s;
    NotApplicableNeedsLetterN(e);
    assert StartsWithTilde(Text(e)) && Truthy(Text(e));
  }

  /** Any estimated mile `~s` sorts as `parseFloat(s)`: the `~` is stripped
      and the rest read as the plain mile would be, decimals included. */
  lemma EstimatedMileSortsAsParsed(s: string)
    ensures MileForSorting(Text("~" + s)) == Some(ParseFloat(s))
    ensures HasSortMile(Text("~" + s)) <==> ParseFloat(s).Finite?
  {
    var e := "~" + s;
    assert e[0] == '~' && e[1..] == s;
    NotApplicableNeedsLetterN(e);
  }

  lemma PlainMileSortsAsItsValue(n: nat)
    ensures MileForSorting(Text(NatText(n))) == Some(Finite(n as real))
  {
    var s := NatText(n);
    assert IsDigit(s[0]);
    ParseFloatReadsNatText(n);
    NotApplicableNeedsLetterN(s);
    assert !StartsWithTilde(Text(s)) && Truthy(Text(s));
  }

  /** Text that starts with something other than blank space or `n` is not "n/a". */
  lemma NotApplicableNeedsLetterN(s: string)
    requires |s| > 0 && !IsWhiteSpace(s[0]) && s[0] != 'n' && s[0] != 'N'
    ensures !IsNotApplicable(Text(s))
  {
    NotApplicableSpellings(s);
    assert TrimStart(s) == s;
    var t := Trim(s);
    if |t| > 0 {
      assert t[0] == s[0];
    }
  }

  /** A mile spelled "n/a" in any case, with surrounding blanks, has no ordering mile. */
  lemma NotApplicableHasNoSortMile(s: string)
    requires |Trim(s)| == 3 && Trim(s)[0] in "nN" && Trim(s)[1] == '/' && Trim(s)[2] in "aA"
    ensures MileForSorting(Text(s)) == None
  {
    NotApplicableSpellings(s);
  }

  /** A numeric mile 0 is falsy in JavaScript, so it reads as a missing mile. */
  lemma NumericZeroMileIsMissing()
    ensures MileForSorting(Numeric(0.0)) == None
    ensures !HasSortMile(Numeric(0.0))
  {
  }

  /** What `getDisplayMile` returns: `null`, the raw field, or the text
      `(2655.8 - mile).toFixed(1)`, represented by the value it prints. */
  datatype DisplayedMile = Hidden | Raw(field: MileField) | Southbound(value: real)

  /** `getDisplayMile`: estimated miles are hidden; in southbound mode a
      numeric mile is mirrored; everything else is shown as stored. */
  function DisplayMile(m: MileField, mode: SortMode): (r: DisplayedMile)
    ensures StartsWithTilde(m) ==> r == Hidden
    ensures !StartsWithTilde(m) ==> r != Hidden
    ensures r.Southbound? <==>
      mode == Sobo && !StartsWithTilde(m) && Truthy(m) && !IsNotApplicable(m) && ParseMile(m).Finite?
    ensures r.Raw? ==> r.field == m
    ensures r.Southbound? ==> Abs(r.value - (TrailLength - ParseMile(m).value)) <= 0.05
    ensures r.Southbound? ==> IsTenth(r.value)
  {
    if Truthy(m) && StartsWithTilde(m) then Hidden
    else if mode == Sobo && Truthy(m) && !IsNotApplicable(m) && ParseMile(m).Finite? then
      Southbound(ToFixed1(TrailLength - ParseMile(m).value))
    else Raw(m)
  }

  /** Northbound and chronological listings never alter a mile they show. */
  lemma DisplayOutsideSouthboundIsRaw(m: MileField, mode: SortMode)
    requires mode != Sobo && !StartsWithTilde(m)
    ensures DisplayMile(m, mode) == Raw(m)
  {
  }

  /** Mirroring twice gives back the shown mile, to display precision: the
      southbound value of mile `x` read as a mile maps back within 0.1 of `x`. */
  lemma SouthboundMirrorIsInvolution(x: real)
    requires x != 0.0 && TrailLength - x != 0.0
    ensures var y := DisplayMile(Numeric(x), Sobo).value;
            y == 0.0 || Abs(DisplayMile(Numeric(y), Sobo).value - x) <= 0.1
  {
  }
}

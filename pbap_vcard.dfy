/**
 * The vCard post-processing of the phone book access server: the property
 * filter a client sends with a pull request (a 64-bit mask, one bit per vCard
 * property) and the clean-up of telephone numbers in composed vCards.
 *
 * A filter byte is modelled by its unsigned value 0..255: for the bit
 * positions 0..7 that are ever read, the arithmetic shift of the sign-extended
 * Java byte yields the same bit.
 */
module PbapVcard {
  import opened Wrappers
  import opened JavaText

  type Byte = x: int | 0 <= x < 256

  /** The properties the filter knows about, with their bit in the mask. */
  datatype FilterBit = FN | PHOTO | BDAY | ADR | EMAIL | TITLE | ORG | NOTE | URL | NICKNAME | DATETIME
  {
    function Pos(): nat {
      match this
      case FN => 1
      case PHOTO => 3
      case BDAY => 4
      case ADR => 5
      case EMAIL => 8
      case TITLE => 12
      case ORG => 16
      case NOTE => 17
      case URL => 20
      case NICKNAME => 23
      case DATETIME => 28
    }

    function Prop(): string {
      match this
      case FN => "FN"
      case PHOTO => "PHOTO"
      case BDAY => "BDAY"
      case ADR => "ADR"
      case EMAIL => "EMAIL"
      case TITLE => "TITLE"
      case ORG => "ORG"
      case NOTE => "NOTE"
      case URL => "URL"
      case NICKNAME => "NICKNAME"
      case DATETIME => "X-IRMC-CALL-DATETIME"
    }

    /** The bit is only honoured for vCard 2.1 (FN is mandatory in 3.0). */
    predicate OnlyCheckV21() { this == FN }

    /** The property is never emitted in vCard 2.1. */
    predicate ExcludeForV21() { this == NICKNAME }
  }

  /** `FilterBit.values()`, in declaration order. */
  const FILTER_BITS: seq<FilterBit> := [FN, PHOTO, BDAY, ADR, EMAIL, TITLE, ORG, NOTE, URL, NICKNAME, DATETIME]

  /** `x >> n` for a non-negative `x`. */
  function ShiftRight(x: nat, n: nat): nat
  {
    if n == 0 then x else ShiftRight(x / 2, n - 1)
  }

  /** Bit `k` of `x`, counting from the least significant bit. */
  predicate Bit(x: nat, k: nat) {
    ShiftRight(x, k) % 2 == 1
  }

  function Pow2(m: nat): (r: nat)
    ensures r >= 1
  {
    if m == 0 then 1 else 2 * Pow2(m - 1)
  }

  /** The filter bytes read as one big-endian number: the last byte holds bits 0..7. */
  function BigEndianValue(f: seq<Byte>): nat
  {
    if f == [] then 0 else BigEndianValue(f[..|f| - 1]) * 256 + f[|f| - 1]
  }

  /** The filter a request carries; `None` when the request has none or asks to ignore it. */
  datatype VCardFilter = VCardFilter(filter: Option<seq<Byte>>)
  {
    /**
     * `isFilteredIn`: whether the property of `bit` is to be kept. FN is
     * always kept in 3.0, NICKNAME never in 2.1, and otherwise a bit beyond
     * an absent or too short mask is kept.
     */
    predicate IsFilteredIn(bit: FilterBit, vCardType21: bool): (r: bool)
      ensures !vCardType21 && bit == FN ==> r
      ensures vCardType21 && bit == NICKNAME ==> !r
      ensures (filter.None? || bit.Pos() / 8 + 1 >= |filter.value|) && !(vCardType21 && bit == NICKNAME) ==> r
    {
      var offset := bit.Pos() / 8 + 1;
      var bitPos := bit.Pos() % 8;
      if !vCardType21 && bit.OnlyCheckV21() then true
      else if vCardType21 && bit.ExcludeForV21() then false
      else if filter.None? || offset >= |filter.value| then true
      else ShiftRight(filter.value[|filter.value| - offset], bitPos) % 2 != 0
    }

    /** `isPhotoEnabled`: the PHOTO bit, read as for vCard 3.0. */
    predicate IsPhotoEnabled()
    {
      IsFilteredIn(PHOTO, false)
    }

    /**
     * Whether a property line whose name is `prop` is kept: the property's
     * filter bit if it has one, kept otherwise; every `X-` property other
     * than a kept call date-time is dropped.
     */
    predicate PropertyFilteredIn(prop: string, vCardType21: bool)
    {
      var base := match FindBit(FILTER_BITS, prop)
        case Some(b) => IsFilteredIn(b, vCardType21)
        case None => true;
      if StartsWith(prop, "X-") && !(base && prop == "X-IRMC-CALL-DATETIME") then false else base
    }

    /**
     * Keep-or-drop decision of every line, left to right: a property line
     * decides for itself, a continuation line inherits the decision in force
     * (none yet counts as dropped). The first unreadable line is the failure.
     */
    function Decisions(lines: seq<string>, vCardType21: bool): (r: Result<seq<bool>, LineFailure>)
      ensures r.Ok? ==> |r.value| == |lines|
    {
      if lines == [] then Ok([])
      else
        var n := |lines| - 1;
        match Decisions(lines[..n], vCardType21)
        case Err(e) => Err(e)
        case Ok(ds) =>
          var line := lines[n];
          if !Readable(line) then Err(FailureOf(line))
          else Ok(ds + [LineDecision(line, n > 0 && ds[n - 1], vCardType21)])
    }

    /**
     * `apply` fails exactly when some line is unreadable, and then with the
     * exception of such a line.
     */
    lemma {:induction false} DecisionsFailWhenUnreadable(lines: seq<string>, vCardType21: bool)
      ensures Decisions(lines, vCardType21).Ok? <==> forall i :: 0 <= i < |lines| ==> Readable(lines[i])
      ensures Decisions(lines, vCardType21).Err? ==>
        exists i :: 0 <= i < |lines| && !Readable(lines[i])
                    && Decisions(lines, vCardType21).error == FailureOf(lines[i])
    {
      if lines != [] {
        var n := |lines| - 1;
        DecisionsFailWhenUnreadable(lines[..n], vCardType21);
        assert forall i :: 0 <= i < n ==> lines[..n][i] == lines[i];
        if Decisions(lines[..n], vCardType21).Err? {
          var i :| 0 <= i < n && !Readable(lines[..n][i])
                   && Decisions(lines[..n], vCardType21).error == FailureOf(lines[..n][i]);
          assert lines[..n][i] == lines[i];
        }
      }
    }

    /** The decision for one line, given the decision in force before it. */
    predicate LineDecision(line: string, carried: bool, vCardType21: bool)
      requires Readable(line)
    {
      if IsContinuation(line) then carried else PropertyFilteredIn(PropertyName(line).value, vCardType21)
    }

    /**
     * The decisions line by line: a property line is decided by its property,
     * a continuation line takes the decision of the line before it, and a
     * continuation line first in the vCard is dropped.
     */
    lemma {:induction false} DecisionsLineByLine(lines: seq<string>, vCardType21: bool, i: nat)
      requires Decisions(lines, vCardType21).Ok? && i < |lines|
      ensures Readable(lines[i])
      ensures var ds := Decisions(lines, vCardType21).value;
        ds[i] == (if IsContinuation(lines[i]) then i > 0 && ds[i - 1]
                  else PropertyFilteredIn(PropertyName(lines[i]).value, vCardType21))
    {
      var n := |lines| - 1;
      var ds := Decisions(lines, vCardType21).value;
      var pre := Decisions(lines[..n], vCardType21).value;
      assert ds == pre + [ds[n]];
      if i < n {
        DecisionsLineByLine(lines[..n], vCardType21, i);
        assert lines[..n][i] == lines[i];
      }
    }

    /** What `apply` returns, stated line by line. */
    function ApplySpec(vCard: string, vCardType21: bool): Result<string, LineFailure>
    {
      if filter.None? then Ok(vCard) else FilterLines(Split(vCard, NEWLINE), vCardType21)
    }

    /** The kept lines, each followed by the separator. */
    function FilterLines(lines: seq<string>, vCardType21: bool): Result<string, LineFailure>
    {
      match Decisions(lines, vCardType21)
      case Err(e) => Err(e)
      case Ok(ds) => Ok(JoinTerminated(Select(lines, ds), NEWLINE))
    }

    /**
     * The decision for one property line: the loop over the filter bits,
     * then the `X-` rule.
     */
    method PropertyDecision(currentProp: string, vCardType21: bool) returns (filteredIn: bool)
      ensures filteredIn == PropertyFilteredIn(currentProp, vCardType21)
    {
      filteredIn := true;
      var b := 0;
      while b < |FILTER_BITS|
        invariant 0 <= b <= |FILTER_BITS|
        invariant forall k :: 0 <= k < b ==> FILTER_BITS[k].Prop() != currentProp
        invariant filteredIn
      {
        if FILTER_BITS[b].Prop() == currentProp {
          FindBitFirstMatch(FILTER_BITS, currentProp, b);
          filteredIn := IsFilteredIn(FILTER_BITS[b], vCardType21);
          break;
        }
        b := b + 1;
      }
      FindBitFirstMatch(FILTER_BITS, currentProp, b);
      if StartsWith(currentProp, "X-") {
        if !(filteredIn && currentProp == "X-IRMC-CALL-DATETIME") {
          filteredIn := false;
        }
      }
    }

    /**
     * `apply`: the lines of `vCard` whose property the filter keeps, each
     * followed by the separator; the vCard unchanged without a filter. An
     * empty line or a property line made only of ';' and ':' throws in the
     * source and is a failure here.
     */
    method Apply(vCard: string, vCardType21: bool) returns (r: Result<string, LineFailure>)
      ensures r == ApplySpec(vCard, vCardType21)
    {
      if filter.None? {
        return Ok(vCard);
      }
      var lines := Split(vCard, NEWLINE);
      r := FilterEachLine(lines, vCardType21);
    }

    /** The loop of `apply` over the lines of the vCard. */
    method FilterEachLine(lines: seq<string>, vCardType21: bool) returns (r: Result<string, LineFailure>)
      ensures r == FilterLines(lines, vCardType21)
    {
      var filteredVCard: string := [];
      var filteredIn := false;
      var i := 0;
      while i < |lines|
        invariant 0 <= i <= |lines|
        invariant Progress(lines[..i], vCardType21) == Ok(FilterProgress(filteredVCard, filteredIn))
      {
        var line := lines[i];
        assert lines[..i + 1][..i] == lines[..i];
        var decided := DecideLine(line, filteredIn, vCardType21);
        if decided.Err? {
          ProgressFollowsDecisions(lines[..i], vCardType21);
          DecisionsFailureStays(lines, i, vCardType21);
          ProgressFollowsDecisions(lines, vCardType21);
          return Err(decided.error);
        }
        filteredIn := decided.value;
        assert lines[..i + 1][i] == line;
        if filteredIn {
          assert filteredVCard + (line + [NEWLINE]) == filteredVCard + line + [NEWLINE];
          filteredVCard := filteredVCard + line + [NEWLINE];
        } else {
          assert filteredVCard + [] == filteredVCard;
        }
        assert Progress(lines[..i + 1], vCardType21) == Ok(FilterProgress(filteredVCard, filteredIn));
        i := i + 1;
      }
      assert lines[..i] == lines;
      ProgressFollowsDecisions(lines, vCardType21);
      return Ok(filteredVCard);
    }

    /**
     * The state of the loop of `apply` after the given lines: the text built
     * so far and the decision in force, or the exception of the first
     * unreadable line.
     */
    function Progress(lines: seq<string>, vCardType21: bool): Result<FilterProgress, LineFailure>
    {
      if lines == [] then Ok(FilterProgress([], false))
      else
        var n := |lines| - 1;
        match Progress(lines[..n], vCardType21)
        case Err(e) => Err(e)
        case Ok(p) =>
          if !Readable(lines[n]) then Err(FailureOf(lines[n]))
          else
            var d := LineDecision(lines[n], p.filteredIn, vCardType21);
            Ok(FilterProgress(p.text + (if d then lines[n] + [NEWLINE] else []), d))
    }

    /**
     * The loop computes the line-by-line decisions: it fails exactly as they
     * do, and otherwise has built the kept lines, the last decision in force.
     */
    lemma {:induction false} ProgressFollowsDecisions(lines: seq<string>, vCardType21: bool)
      ensures Progress(lines, vCardType21).Err? <==> Decisions(lines, vCardType21).Err?
      ensures Progress(lines, vCardType21).Err? ==>
        Progress(lines, vCardType21).error == Decisions(lines, vCardType21).error
      ensures Progress(lines, vCardType21).Ok? ==>
        Progress(lines, vCardType21).value.text
          == JoinTerminated(Select(lines, Decisions(lines, vCardType21).value), NEWLINE)
      ensures Progress(lines, vCardType21).Ok? ==>
        Progress(lines, vCardType21).value.filteredIn
          == (|lines| > 0 && Decisions(lines, vCardType21).value[|lines| - 1])
    {
      if lines != [] {
        var n := |lines| - 1;
        ProgressFollowsDecisions(lines[..n], vCardType21);
        if Decisions(lines[..n], vCardType21).Ok? && Readable(lines[n]) {
          ProgressStep(lines, vCardType21);
        }
      }
    }

    /** The induction step of `ProgressFollowsDecisions` for a readable last line. */
    lemma ProgressStep(lines: seq<string>, vCardType21: bool)
      requires lines != [] && Readable(lines[|lines| - 1])
      requires var n := |lines| - 1;
        Decisions(lines[..n], vCardType21).Ok? && Progress(lines[..n], vCardType21).Ok?
        && Progress(lines[..n], vCardType21).value.text
           == JoinTerminated(Select(lines[..n], Decisions(lines[..n], vCardType21).value), NEWLINE)
        && Progress(lines[..n], vCardType21).value.filteredIn
           == (n > 0 && Decisions(lines[..n], vCardType21).value[n - 1])
      ensures Progress(lines, vCardType21).Ok? && Decisions(lines, vCardType21).Ok?
      ensures Progress(lines, vCardType21).value.text
          == JoinTerminated(Select(lines, Decisions(lines, vCardType21).value), NEWLINE)
      ensures Progress(lines, vCardType21).value.filteredIn
          == Decisions(lines, vCardType21).value[|lines| - 1]
    {
      var n := |lines| - 1;
      var ds := Decisions(lines[..n], vCardType21).value;
      var p := Progress(lines[..n], vCardType21).value;
      var d := LineDecision(lines[n], n > 0 && ds[n - 1], vCardType21);
      assert Decisions(lines, vCardType21).value == ds + [d];
      assert (ds + [d])[..n] == ds;
      var kept := Select(lines[..n], ds);
      if d {
        assert Select(lines, ds + [d]) == kept + [lines[n]];
        assert Progress(lines, vCardType21).value.text == p.text + lines[n] + [NEWLINE];
        JoinTerminatedAppend(kept, lines[n], NEWLINE);
      } else {
        assert Select(lines, ds + [d]) == kept;
        assert Progress(lines, vCardType21).value.text == p.text;
      }
    }

    /**
     * The head of the loop body of `apply`: a line that starts a property
     * (neither white space nor '=' first) sets the decision from its property
     * name; reading the first character of an empty line, or the name of a
     * line with none, throws.
     */
    method DecideLine(line: string, filteredIn: bool, vCardType21: bool) returns (r: Result<bool, LineFailure>)
      ensures !Readable(line) ==> r == Err(FailureOf(line))
      ensures Readable(line) ==> r == Ok(LineDecision(line, filteredIn, vCardType21))
    {
      if line == [] {
        return Err(StringIndexOutOfBounds);
      }
      if !IsJavaWhitespace(line[0]) && !StartsWith(line, "=") {
        var prop := PropertyName(line);
        if prop.None? {
          return Err(ArrayIndexOutOfBounds);
        }
        var d := PropertyDecision(prop.value, vCardType21);
        return Ok(d);
      }
      return Ok(filteredIn);
    }

    /** A failure at a line is the failure of the whole vCard, whatever follows. */
    lemma DecisionsFailureStays(lines: seq<string>, i: nat, vCardType21: bool)
      requires i < |lines| && Decisions(lines[..i], vCardType21).Ok? && !Readable(lines[i])
      ensures Decisions(lines, vCardType21) == Err(FailureOf(lines[i]))
    {
      assert lines[..i + 1][..i] == lines[..i];
      DecisionsFailureExtends(lines, i + 1, vCardType21);
    }

    /** A failure in a prefix is the failure of the whole vCard. */
    lemma {:induction false} DecisionsFailureExtends(lines: seq<string>, k: nat, vCardType21: bool)
      requires k <= |lines|
      requires Decisions(lines[..k], vCardType21).Err?
      ensures Decisions(lines, vCardType21) == Decisions(lines[..k], vCardType21)
      decreases |lines| - k
    {
      if k < |lines| {
        var m := k + 1;
        assert lines[..m][..k] == lines[..k];
        DecisionsFailureExtends(lines, m, vCardType21);
      } else {
        assert lines[..k] == lines;
      }
    }
  }

  /** The text `apply` has built so far and whether the current property is kept. */
  datatype FilterProgress = FilterProgress(text: string, filteredIn: bool)

  /** The exception `apply` raises on a line it cannot read. */
  datatype LineFailure = StringIndexOutOfBounds | ArrayIndexOutOfBounds

  /** The first filter bit whose property is `prop`. */
  function FindBit(bits: seq<FilterBit>, prop: string): (r: Option<FilterBit>)
    ensures r.Some? ==> r.value in bits && r.value.Prop() == prop
    ensures r.None? ==> forall b :: b in bits ==> b.Prop() != prop
  {
    if bits == [] then None
    else if bits[0].Prop() == prop then Some(bits[0])
    else FindBit(bits[1..], prop)
  }

  /** The search stops at the first bit naming the property, or finds none. */
  lemma {:induction false} FindBitFirstMatch(bits: seq<FilterBit>, prop: string, b: nat)
    requires b <= |bits| && forall k :: 0 <= k < b ==> bits[k].Prop() != prop
    ensures b < |bits| && bits[b].Prop() == prop ==> FindBit(bits, prop) == Some(bits[b])
    ensures b == |bits| ==> FindBit(bits, prop) == None
  {
    if b > 0 {
      FindBitFirstMatch(bits[1..], prop, b - 1);
    }
  }

  predicate IsDelimiter(c: char) {
    c == ';' || c == ':'
  }

  /** A line continuing the previous property: it starts with white space or '='. */
  predicate IsContinuation(line: string)
  {
    line != [] && (IsJavaWhitespace(line[0]) || line[0] == '=')
  }

  /** The characters before the first ';' or ':'. */
  function UpToDelimiter(s: string): (r: string)
    ensures r <= s
    ensures forall c :: c in r ==> !IsDelimiter(c)
    ensures |r| < |s| ==> IsDelimiter(s[|r|])
  {
    if s == [] || IsDelimiter(s[0]) then [] else [s[0]] + UpToDelimiter(s[1..])
  }

  /**
   * `line.split("[;:]")[0]`: the property name. `split` drops the trailing
   * empty pieces, so a line made only of delimiters has no first element.
   */
  function PropertyName(line: string): (r: Option<string>)
    ensures r.None? <==> forall c :: c in line ==> IsDelimiter(c)
  {
    if forall c :: c in line ==> IsDelimiter(c) then None else Some(UpToDelimiter(line))
  }

  /** A line `apply` can process without throwing. */
  predicate Readable(line: string)
  {
    line != [] && (IsContinuation(line) || PropertyName(line).Some?)
  }

  function FailureOf(line: string): LineFailure
  {
    if line == [] then StringIndexOutOfBounds else ArrayIndexOutOfBounds
  }

  /** The lines whose decision is to keep them, in order. */
  function Select(lines: seq<string>, keep: seq<bool>): (r: seq<string>)
    requires |keep| == |lines|
    ensures |r| <= |lines|
  {
    if lines == [] then []
    else
      var n := |lines| - 1;
      Select(lines[..n], keep[..n]) + (if keep[n] then [lines[n]] else [])
  }

  /** Every selected line is one of the lines. */
  lemma {:induction false} SelectedAreLines(lines: seq<string>, keep: seq<bool>)
    requires |keep| == |lines|
    ensures forall x :: x in Select(lines, keep) ==> x in lines
  {
    if lines != [] {
      var n := |lines| - 1;
      SelectedAreLines(lines[..n], keep[..n]);
      assert forall x :: x in lines[..n] ==> x in lines;
    }
  }

  /**
   * The filter mask read as one number: with at least `k / 8 + 1` bytes,
   * bit `k` of the big-endian value is bit `k % 8` of the byte `k / 8` from the end.
   */
  lemma {:induction false} BitOfBigEndian(f: seq<Byte>, k: nat)
    requires k / 8 < |f|
    ensures Bit(BigEndianValue(f), k) == Bit(f[|f| - 1 - k / 8], k % 8)
  {
    var n := |f| - 1;
    Pow2Eight();
    BitSplit(BigEndianValue(f[..n]), f[n], 8, k);
    if k >= 8 {
      BitOfBigEndian(f[..n], k - 8);
    }
  }

  lemma Pow2Eight()
    ensures Pow2(8) == 256
  {
    assert Pow2(2) == 4;
    assert Pow2(4) == 16;
  }

  /** Bits of `a * 2^m + b` with `b < 2^m`: the low `m` are those of `b`, the rest those of `a`. */
  lemma {:induction false} BitSplit(a: nat, b: nat, m: nat, k: nat)
    requires b < Pow2(m)
    ensures Bit(a * Pow2(m) + b, k) == if k < m then Bit(b, k) else Bit(a, k - m)
    decreases m
  {
    if m > 0 {
      var p := Pow2(m - 1);
      var c := a * p;
      assert a * Pow2(m) == 2 * c by {
        assert Pow2(m) == 2 * p;
        assert a * (2 * p) == 2 * (a * p);
      }
      var x := 2 * c + b;
      if k > 0 {
        assert x / 2 == c + b / 2;
        BitStep(x, k);
        BitStep(b, k);
        BitSplit(a, b / 2, m - 1, k - 1);
      }
    }
  }

  /** Bit `k > 0` of `x` is bit `k - 1` of `x / 2`. */
  lemma BitStep(x: nat, k: nat)
    requires k > 0
    ensures Bit(x, k) == Bit(x / 2, k - 1)
  {
  }

  /**
   * The filter as the standard defines it: when the mask has more bytes than
   * the byte holding the property's bit, and the vCard version does not
   * override it, the property is kept exactly when its bit of the mask is set.
   */
  lemma FilteredInIsMaskBit(f: seq<Byte>, bit: FilterBit, vCardType21: bool)
    requires bit.Pos() / 8 + 1 < |f|
    requires !(!vCardType21 && bit.OnlyCheckV21()) && !(vCardType21 && bit.ExcludeForV21())
    ensures VCardFilter(Some(f)).IsFilteredIn(bit, vCardType21) == Bit(BigEndianValue(f), bit.Pos())
  {
    BitOfBigEndian(f, bit.Pos());
  }

  /**
   * `isPhotoEnabled` reads bit 3 of the mask (the PHOTO bit) and holds
   * without a mask or with a mask of at most one byte.
   */
  lemma PhotoEnabledIsMaskBit(v: VCardFilter)
    ensures v.IsPhotoEnabled()
        <==> v.filter.None? || |v.filter.value| <= 1 || Bit(BigEndianValue(v.filter.value), 3)
  {
    if v.filter.Some? && |v.filter.value| > 1 {
      FilteredInIsMaskBit(v.filter.value, PHOTO, false);
    }
  }


  /** The first byte of the mask is never consulted. */
  lemma FirstByteIgnored(f: seq<Byte>, g: seq<Byte>, bit: FilterBit, vCardType21: bool)
    requires |f| == |g| && f != [] && f[1..] == g[1..]
    ensures VCardFilter(Some(f)).IsFilteredIn(bit, vCardType21)
        == VCardFilter(Some(g)).IsFilteredIn(bit, vCardType21)
  {
    var offset := bit.Pos() / 8 + 1;
    if offset < |f| {
      assert f[|f| - offset] == f[1..][|f| - offset - 1];
    }
  }

  /**
   * The `X-` rule: an `X-` property line is kept only when it is the call
   * date-time and its bit keeps it; a property without a filter bit and not
   * starting with `X-` is always kept.
   */
  lemma PropertyRules(v: VCardFilter, prop: string, vCardType21: bool)
    ensures StartsWith(prop, "X-") ==>
      (v.PropertyFilteredIn(prop, vCardType21)
       <==> prop == "X-IRMC-CALL-DATETIME" && v.IsFilteredIn(DATETIME, vCardType21))
    ensures !StartsWith(prop, "X-") && (forall b :: b in FILTER_BITS ==> b.Prop() != prop) ==>
      v.PropertyFilteredIn(prop, vCardType21)
    ensures forall b :: b in FILTER_BITS && b.Prop() == prop && !StartsWith(prop, "X-") ==>
      (v.PropertyFilteredIn(prop, vCardType21) <==> v.IsFilteredIn(b, vCardType21))
  {
    forall b | b in FILTER_BITS && b.Prop() == prop
      ensures FindBit(FILTER_BITS, prop) == Some(b)
    {
      PropIdentifiesBit(FindBit(FILTER_BITS, prop).value, b);
    }
    if prop == "X-IRMC-CALL-DATETIME" {
      assert DATETIME in FILTER_BITS;
    }
  }

  /** No two filter bits name the same property. */
  lemma PropIdentifiesBit(b: FilterBit, c: FilterBit)
    requires b.Prop() == c.Prop()
    ensures b == c
  {
  }

  /**
   * A continuation line has the decision of the nearest property line above
   * it; continuation lines before any property line are dropped.
   */
  lemma {:induction false} ContinuationFollowsProperty(v: VCardFilter, lines: seq<string>,
                                                       vCardType21: bool, i: nat)
    requires v.Decisions(lines, vCardType21).Ok?
    requires i < |lines| && IsContinuation(lines[i])
    ensures var ds := v.Decisions(lines, vCardType21).value;
      (forall k :: 0 <= k <= i ==> IsContinuation(lines[k])) ==> !ds[i]
    ensures var ds := v.Decisions(lines, vCardType21).value;
      forall j :: (0 <= j < i && !IsContinuation(lines[j])
                   && forall k :: j < k <= i ==> IsContinuation(lines[k]))
        ==> ds[i] == ds[j]
  {
    v.DecisionsLineByLine(lines, vCardType21, i);
    if i > 0 && IsContinuation(lines[i - 1]) {
      ContinuationFollowsProperty(v, lines, vCardType21, i - 1);
    }
  }

  /** Splitting the result of `apply` gives back exactly the kept lines, in order. */
  lemma ApplyKeepsLines(v: VCardFilter, lines: seq<string>, vCardType21: bool)
    requires forall i :: 0 <= i < |lines| ==> NEWLINE !in lines[i]
    requires v.Decisions(lines, vCardType21).Ok?
    requires Select(lines, v.Decisions(lines, vCardType21).value) != []
    ensures v.FilterLines(lines, vCardType21).Ok?
    ensures Split(v.FilterLines(lines, vCardType21).value, NEWLINE)
         == Select(lines, v.Decisions(lines, vCardType21).value)
    ensures forall x :: x in Select(lines, v.Decisions(lines, vCardType21).value) ==> x in lines
  {
    var ds := v.Decisions(lines, vCardType21).value;
    var kept := Select(lines, ds);
    v.DecisionsFailWhenUnreadable(lines, vCardType21);
    SelectedAreLines(lines, ds);
    forall j | 0 <= j < |kept| ensures kept[j] != [] && NEWLINE !in kept[j] {
      assert kept[j] in kept;
      var k :| 0 <= k < |lines| && lines[k] == kept[j];
      assert Readable(lines[k]);
    }
    SplitJoinRoundTrip(kept, NEWLINE);
  }

  /** A vCard with no filter passes through `apply` unchanged. */
  lemma ApplyWithoutFilter(vCard: string, vCardType21: bool)
    ensures VCardFilter(None).ApplySpec(vCard, vCardType21) == Ok(vCard)
  {
  }

  /** An empty vCard makes `apply` throw once a filter is set: its only line is empty. */
  lemma ApplyEmptyVcardFails(f: seq<Byte>, vCardType21: bool)
    ensures VCardFilter(Some(f)).ApplySpec([], vCardType21) == Err(StringIndexOutOfBounds)
  {
    var v := VCardFilter(Some(f));
    var lines: seq<string> := [[]];
    assert Split([], NEWLINE) == lines;
    assert lines[..0] == [];
    assert v.Decisions(lines[..0], vCardType21) == Ok([]);
    assert !Readable(lines[0]);
    assert v.Decisions(lines, vCardType21) == Err(StringIndexOutOfBounds);
  }

  // ---- StripTelephoneNumber ------------------------------------------------

  /** None of the characters a `TEL` line loses. */
  predicate NoPunctuation(x: string)
  {
    '(' !in x && ')' !in x && '-' !in x && ' ' !in x
  }

  /** A `TEL` line loses its parentheses, dashes and spaces; other lines stay as they are. */
  function CleanLine(line: string): string
  {
    if StartsWith(line, "TEL")
    then RemoveChar(RemoveChar(RemoveChar(RemoveChar(line, '('), ')'), '-'), ' ')
    else line
  }

  function CleanLines(lines: seq<string>): (r: seq<string>)
    ensures |r| == |lines|
    ensures forall i :: 0 <= i < |lines| ==> r[i] == CleanLine(lines[i])
  {
    if lines == [] then [] else CleanLines(lines[..|lines| - 1]) + [CleanLine(lines[|lines| - 1])]
  }

  /** The non-empty strings of `xs`, in order. */
  function NonEmpty(xs: seq<string>): (r: seq<string>)
    ensures |r| <= |xs|
  {
    if xs == [] then []
    else
      var n := |xs| - 1;
      NonEmpty(xs[..n]) + (if xs[n] != [] then [xs[n]] else [])
  }

  lemma {:induction false} NonEmptyElements(xs: seq<string>)
    ensures forall x :: x in NonEmpty(xs) <==> x in xs && x != []
  {
    if xs != [] {
      var n := |xs| - 1;
      NonEmptyElements(xs[..n]);
      assert xs == xs[..n] + [xs[n]];
    }
  }

  /** What `StripTelephoneNumber` returns. */
  function StripSpec(vCard: string): string
  {
    JoinTerminated(NonEmpty(CleanLines(Split(vCard, NEWLINE))), NEWLINE)
  }

  /** The first loop of `StripTelephoneNumber`: every `TEL` line of the array cleaned in place. */
  method CleanTelephoneLines(attr: array<string>)
    modifies attr
    ensures attr[..] == CleanLines(old(attr[..]))
  {
    ghost var lines := attr[..];
    var i := 0;
    while i < attr.Length
      invariant 0 <= i <= attr.Length
      invariant forall k :: 0 <= k < i ==> attr[k] == CleanLine(lines[k])
      invariant forall k :: i <= k < attr.Length ==> attr[k] == lines[k]
    {
      if StartsWith(attr[i], "TEL") {
        attr[i] := RemoveChar(attr[i], '(');
        attr[i] := RemoveChar(attr[i], ')');
        attr[i] := RemoveChar(attr[i], '-');
        attr[i] := RemoveChar(attr[i], ' ');
      }
      i := i + 1;
    }
  }

  /**
   * `StripTelephoneNumber`: every line starting with `TEL` is cleaned in
   * place in the array of lines, then the non-empty lines are concatenated,
   * each followed by a newline.
   */
  method StripTelephoneNumber(vCard: string) returns (r: string)
    ensures r == StripSpec(vCard)
  {
    var lines := Split(vCard, NEWLINE);
    var attr := new string[|lines|](k requires 0 <= k < |lines| => lines[k]);
    assert attr[..] == lines;
    CleanTelephoneLines(attr);
    ghost var cleaned := attr[..];
    var i := 0;
    r := [];
    while i < attr.Length
      invariant 0 <= i <= attr.Length
      invariant attr[..] == cleaned
      invariant r == JoinTerminated(NonEmpty(cleaned[..i]), NEWLINE)
    {
      assert cleaned[..i + 1][..i] == cleaned[..i];
      assert attr[i] == cleaned[i];
      if attr[i] != [] {
        assert NonEmpty(cleaned[..i + 1]) == NonEmpty(cleaned[..i]) + [attr[i]];
        JoinTerminatedAppend(NonEmpty(cleaned[..i]), attr[i], NEWLINE);
        r := r + attr[i] + [NEWLINE];
      } else {
        assert NonEmpty(cleaned[..i + 1]) == NonEmpty(cleaned[..i]);
      }
      i := i + 1;
    }
    assert cleaned[..i] == cleaned;
  }

  /** A cleaned `TEL` line still starts with `TEL` and holds no '(', ')', '-' or ' '. */
  lemma CleanTelephoneLine(line: string)
    requires StartsWith(line, "TEL")
    ensures StartsWith(CleanLine(line), "TEL")
    ensures NoPunctuation(CleanLine(line))
  {
    var a := RemoveChar(line, '(');
    var b := RemoveChar(a, ')');
    var c := RemoveChar(b, '-');
    RemoveCharKeepsPrefix(line, "TEL", '(');
    RemoveCharKeepsPrefix(a, "TEL", ')');
    RemoveCharKeepsPrefix(b, "TEL", '-');
    RemoveCharKeepsPrefix(c, "TEL", ' ');
    RemoveCharKeepsAbsent(a, ')', '(');
    RemoveCharKeepsAbsent(b, '-', '(');
    RemoveCharKeepsAbsent(c, ' ', '(');
    RemoveCharKeepsAbsent(b, '-', ')');
    RemoveCharKeepsAbsent(c, ' ', ')');
    RemoveCharKeepsAbsent(c, ' ', '-');
  }

  /** Cleaning never introduces a line break. */
  lemma CleanKeepsNoNewline(line: string)
    requires NEWLINE !in line
    ensures NEWLINE !in CleanLine(line)
  {
    var a := RemoveChar(line, '(');
    var b := RemoveChar(a, ')');
    var c := RemoveChar(b, '-');
    RemoveCharKeepsAbsent(line, '(', NEWLINE);
    RemoveCharKeepsAbsent(a, ')', NEWLINE);
    RemoveCharKeepsAbsent(b, '-', NEWLINE);
    RemoveCharKeepsAbsent(c, ' ', NEWLINE);
  }

  /**
   * A line of a stripped vCard: non-empty and without a line break; without
   * punctuation when it is a `TEL` line, and otherwise one of the input lines
   * as it was.
   */
  predicate StrippedLine(x: string, input: seq<string>)
  {
    x != [] && NEWLINE !in x
    && (StartsWith(x, "TEL") ==> NoPunctuation(x))
    && (!StartsWith(x, "TEL") ==> x in input)
  }

  lemma NonEmptyAppend(xs: seq<string>, x: string)
    ensures NonEmpty(xs + [x]) == NonEmpty(xs) + (if x != [] then [x] else [])
  {
    assert (xs + [x])[..|xs|] == xs;
  }

  lemma StrippedLineOfPrefix(x: string, lines: seq<string>, n: nat)
    requires n <= |lines| && StrippedLine(x, lines[..n])
    ensures StrippedLine(x, lines)
  {
    if !StartsWith(x, "TEL") {
      var k :| 0 <= k < n && lines[..n][k] == x;
      assert lines[k] == x;
    }
  }

  lemma {:induction false} StrippedLinesOf(lines: seq<string>)
    requires forall i :: 0 <= i < |lines| ==> NEWLINE !in lines[i]
    ensures forall j :: 0 <= j < |NonEmpty(CleanLines(lines))| ==>
      StrippedLine(NonEmpty(CleanLines(lines))[j], lines)
  {
    if lines != [] {
      var n := |lines| - 1;
      StrippedLinesOf(lines[..n]);
      var pre := NonEmpty(CleanLines(lines[..n]));
      var x := CleanLine(lines[n]);
      NonEmptyAppend(CleanLines(lines[..n]), x);
      assert CleanLines(lines) == CleanLines(lines[..n]) + [x];
      forall j | 0 <= j < |pre|
        ensures StrippedLine(pre[j], lines)
      {
        StrippedLineOfPrefix(pre[j], lines, n);
      }
      if x != [] {
        CleanKeepsNoNewline(lines[n]);
        if StartsWith(lines[n], "TEL") {
          CleanTelephoneLine(lines[n]);
        }
        assert StrippedLine(x, lines);
      }
    }
  }

  /**
   * The lines of a stripped vCard are stripped lines of the input, and
   * splitting the result gives exactly them back.
   */
  lemma StrippedLines(vCard: string)
    ensures var out := NonEmpty(CleanLines(Split(vCard, NEWLINE)));
      (forall j :: 0 <= j < |out| ==> StrippedLine(out[j], Split(vCard, NEWLINE)))
      && (out != [] ==> Split(StripSpec(vCard), NEWLINE) == out)
      && (out == [] ==> StripSpec(vCard) == [])
  {
    var out := NonEmpty(CleanLines(Split(vCard, NEWLINE)));
    StrippedLinesOf(Split(vCard, NEWLINE));
    if out != [] {
      forall j | 0 <= j < |out| ensures out[j] != [] && NEWLINE !in out[j] {
        assert StrippedLine(out[j], Split(vCard, NEWLINE));
      }
      SplitJoinRoundTrip(out, NEWLINE);
    }
  }

  /** Stripping twice changes nothing more. */
  lemma StripIdempotent(vCard: string)
    ensures StripSpec(StripSpec(vCard)) == StripSpec(vCard)
  {
    StrippedLines(vCard);
    var out := NonEmpty(CleanLines(Split(vCard, NEWLINE)));
    if out == [] {
      NothingLeftToStrip();
    } else {
      forall j | 0 <= j < |out|
        ensures out[j] != [] && NEWLINE !in out[j] && (StartsWith(out[j], "TEL") ==> NoPunctuation(out[j]))
      {
        assert StrippedLine(out[j], Split(vCard, NEWLINE));
      }
      StrippedJoinIsFixed(out);
    }
  }

  /** Clean, non-empty, newline-free lines joined by newlines are left alone by stripping. */
  lemma StrippedJoinIsFixed(out: seq<string>)
    requires out != []
    requires forall j :: 0 <= j < |out| ==> out[j] != [] && NEWLINE !in out[j]
    requires forall j :: 0 <= j < |out| && StartsWith(out[j], "TEL") ==> NoPunctuation(out[j])
    ensures StripSpec(JoinTerminated(out, NEWLINE)) == JoinTerminated(out, NEWLINE)
  {
    SplitJoinRoundTrip(out, NEWLINE);
    CleanLinesFixed(out);
    NonEmptyFixed(out);
  }


  /** Stripping an empty vCard gives the empty vCard. */
  lemma NothingLeftToStrip()
    ensures StripSpec([]) == []
  {
    var empty: seq<string> := [[]];
    assert CleanLines(empty) == empty;
    assert NonEmpty(empty) == [];
  }

  lemma {:induction false} CleanLinesFixed(xs: seq<string>)
    requires forall i :: 0 <= i < |xs| && StartsWith(xs[i], "TEL") ==> NoPunctuation(xs[i])
    ensures CleanLines(xs) == xs
  {
    if xs != [] {
      var n := |xs| - 1;
      CleanLinesFixed(xs[..n]);
      var x := xs[n];
      if StartsWith(x, "TEL") {
        RemoveCharAbsent(x, '(');
        RemoveCharAbsent(x, ')');
        RemoveCharAbsent(x, '-');
        RemoveCharAbsent(x, ' ');
      }
      assert xs[..n] + [x] == xs;
    }
  }

  lemma {:induction false} RemoveCharAbsent(s: string, c: char)
    requires c !in s
    ensures RemoveChar(s, c) == s
    decreases |s|
  {
    if s != [] {
      RemoveCharAbsent(s[1..], c);
      assert [s[0]] + s[1..] == s;
    }
  }

  lemma {:induction false} NonEmptyFixed(xs: seq<string>)
    requires forall i :: 0 <= i < |xs| ==> xs[i] != []
    ensures NonEmpty(xs) == xs
  {
    if xs != [] {
      var n := |xs| - 1;
      NonEmptyFixed(xs[..n]);
      assert xs[..n] + [xs[n]] == xs;
    }
  }
}

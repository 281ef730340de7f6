/**
 * `Input::getSuggestions` (src/Input.php:51-81) as functions: one forward pass
 * over the catalogue lines in which a blank line starts a new vendor group, the
 * first line of a group is the vendor header that decides whether the group is
 * eligible, and every further line of an eligible group is a menu item that is
 * suggested when there is enough notice.
 *
 * `Scan` follows the loop line by line, with the two flags of the source as a
 * two-state machine. `Selection` says the same thing position by position: the
 * suggestions are, in catalogue order, the outputs of exactly those item lines
 * whose group header qualifies and which can be prepared in time.
 */
module Matching {
  import opened Strings

  /** `PHP_EOL`, which both marks a blank line and ends every suggestion. */
  const EOL: string := "\n"

  /** The catalogue field separator. */
  const Delimiter: char := ';'

  // ------------------------------------------------- the helpers of Input

  /** `getAreaOfPostcode`: the postcode up to, not including, its first digit. */
  function AreaOfPostcode(postcode: string): (area: string)
    ensures area <= postcode
    ensures forall i :: 0 <= i < |area| ==> !IsDigit(area[i])
    ensures area == postcode || IsDigit(postcode[|area|])
  {
    postcode[..NonDigitRun(postcode)]
  }

  /** The three properties of `AreaOfPostcode` determine it: it is the longest digit-free prefix. */
  lemma AreaIsLongestDigitFreePrefix(postcode: string, a: string)
    requires a <= postcode
    requires forall i :: 0 <= i < |a| ==> !IsDigit(a[i])
    requires a == postcode || IsDigit(postcode[|a|])
    ensures a == AreaOfPostcode(postcode)
  {
  }

  /**
   * `withinAdvanceTime`: the target moment lies strictly after now shifted
   * forward by `advance` hours.
   */
  predicate WithinAdvanceTime(target: int, now: int, advance: nat)
  {
    target > now + 3600 * advance
  }

  /** Needing less notice never hurts: what is ready with `more` hours of lead time is ready with fewer. */
  lemma WithinAdvanceTimeMonotone(target: int, now: int, less: nat, more: nat)
    requires less <= more && WithinAdvanceTime(target, now, more)
    ensures WithinAdvanceTime(target, now, less)
  {
  }

  /**
   * The lead time as src/Input.php:70 computes it: cut the last two characters
   * off the third field (meant to be the unit `h` and the line terminator) and
   * read the number that remains.
   */
  function LeadHoursAsWritten(field: string): nat
  {
    if |field| >= 2 then LeadingNat(field[..|field| - 2]) else 0
  }

  /** The lead time as intended: the number in front of the unit `h`. */
  function LeadHours(field: string): nat
  {
    LeadingNat(field)
  }

  /** `<n>h` reads as `n` hours whether or not a line terminator follows. */
  lemma LeadHoursRoundTrip(n: nat, eol: string)
    requires eol == "" || eol == EOL
    ensures LeadHours(Decimal(n) + "h" + eol) == n
  {
    assert Decimal(n) + "h" + eol == Decimal(n) + ("h" + eol);
    LeadingNatOfDecimal(n, "h" + eol);
  }

  /** On a line that ends with the terminator, the source's reading is the intended one. */
  lemma LeadHoursAsWrittenTerminated(n: nat)
    ensures LeadHoursAsWritten(Decimal(n) + "h" + EOL) == n
  {
    var f := Decimal(n) + "h" + EOL;
    assert f[..|f| - 2] == Decimal(n) + "";
    LeadingNatOfDecimal(n, "");
  }

  /**
   * On the last line of a catalogue without a final terminator, the source
   * drops the last digit: `12h` reads as 1 hour, `36h` as 3.
   */
  lemma LeadHoursAsWrittenUnterminated(n: nat)
    ensures LeadHoursAsWritten(Decimal(n) + "h") == n / 10
    ensures n >= 1 ==> LeadHoursAsWritten(Decimal(n) + "h") != LeadHours(Decimal(n) + "h")
  {
    var f := Decimal(n) + "h";
    LeadHoursRoundTrip(n, "");
    assert Decimal(n) + "h" + "" == f;
    if n >= 10 {
      assert f[..|f| - 2] == Decimal(n / 10) + "";
      LeadingNatOfDecimal(n / 10, "");
    } else {
      assert f[..|f| - 2] == "";
    }
  }

  // ------------------------------------------------------ one catalogue line

  /** What the order asks for: its postcode area, its covers, the target moment and now, in seconds. */
  datatype Query = Query(area: string, covers: int, target: int, now: int)

  /**
   * A vendor header `name;postcode;maxCovers`: the vendor delivers to the
   * order's area and its capacity, the number its third field starts with,
   * is at least the order's covers.
   */
  predicate VendorQualifies(header: string, q: Query)
  {
    var v := Explode(header, Delimiter);
    AreaOfPostcode(Field(v, 1)) == q.area && LeadingNat(Field(v, 2)) >= q.covers
  }

  /** The third field of a line: on a menu item, the lead time. */
  function LeadField(line: string): string
  {
    Field(Explode(line, Delimiter), 2)
  }

  /** A menu item `name;allergens;<n>h`: there are more than `n` hours of notice. */
  predicate ItemQualifies(item: string, q: Query)
  {
    WithinAdvanceTime(q.target, q.now, LeadHours(LeadField(item)))
  }

  /** The suggestion for an item line: its name and allergens, and a line terminator. */
  function ItemOutput(item: string): string
  {
    var s := Explode(item, Delimiter);
    Field(s, 0) + [Delimiter] + Field(s, 1) + EOL
  }

  /**
   * A suggestion is one terminated line that splits into exactly the item's
   * name and allergens: the lead-time field never reaches the output.
   */
  lemma OutputOmitsLeadTime(item: string)
    ensures var s := Explode(item, Delimiter);
            var out := ItemOutput(item);
            && |out| >= 2 && out[|out| - 1] == '\n'
            && Explode(out[..|out| - 1], Delimiter) == [Field(s, 0), Field(s, 1)]
  {
    var s := Explode(item, Delimiter);
    var out := ItemOutput(item);
    var parts := [Field(s, 0), Field(s, 1)];
    assert out[..|out| - 1] == Join(parts, Delimiter);
    ExplodeJoin(parts, Delimiter);
  }

  // ------------------------------------------------------------ the scan

  /** `$newVendor` set is `AwaitingHeader`; otherwise `$suggestVendor` is carried in `InGroup`. */
  datatype ScanState = AwaitingHeader | InGroup(suggestVendor: bool)

  /** The state after one line: a blank line awaits a header, a header decides the group, an item changes nothing. */
  function Step(line: string, q: Query, st: ScanState): ScanState
  {
    if line == EOL then AwaitingHeader
    else match st
      case AwaitingHeader => InGroup(VendorQualifies(line, q))
      case InGroup(_) => st
  }

  /** What one line adds to the suggestions: only an item of an eligible group that can be prepared in time adds anything. */
  function Emit(line: string, q: Query, st: ScanState): string
  {
    if line != EOL && st == InGroup(true) && ItemQualifies(line, q) then ItemOutput(line) else ""
  }

  /** The loop of src/Input.php:57-78 over the lines still to read, from state `st`. */
  function Scan(lines: seq<string>, q: Query, st: ScanState): string
    decreases |lines|
  {
    if lines == [] then "" else Emit(lines[0], q, st) + Scan(lines[1..], q, Step(lines[0], q, st))
  }

  /** `getSuggestions` over the catalogue lines, each as `fgets` returns it. */
  function Suggestions(lines: seq<string>, q: Query): string
  {
    Scan(lines, q, AwaitingHeader)
  }

  // ------------------------------------------- the positional reference

  /** The first line of the group that line `i` belongs to: just after the nearest blank line before it. */
  function GroupStart(lines: seq<string>, i: nat): (h: nat)
    requires i < |lines|
    ensures h <= i
    ensures h == 0 || lines[h - 1] == EOL
    ensures forall j :: h <= j < i ==> lines[j] != EOL
    decreases i
  {
    if i == 0 || lines[i - 1] == EOL then i else GroupStart(lines, i - 1)
  }

  /** A menu item: a non-blank line that is not the first line of its group. */
  predicate IsItemLine(lines: seq<string>, i: nat)
    requires i < |lines|
  {
    lines[i] != EOL && GroupStart(lines, i) < i
  }

  /** What line `i` adds to the suggestions: output only for a qualifying item of a qualifying vendor. */
  function Contribution(lines: seq<string>, q: Query, i: nat): string
    requires i < |lines|
  {
    if IsItemLine(lines, i) && VendorQualifies(lines[GroupStart(lines, i)], q) && ItemQualifies(lines[i], q)
    then ItemOutput(lines[i])
    else ""
  }

  /** The contributions of the first `n` lines, in catalogue order. */
  function Selection(lines: seq<string>, q: Query, n: nat): string
    requires n <= |lines|
    decreases n
  {
    if n == 0 then "" else Selection(lines, q, n - 1) + Contribution(lines, q, n - 1)
  }

  /** The scan's state on reaching line `k`, read off the lines before it. */
  function StateAt(lines: seq<string>, q: Query, k: nat): ScanState
    requires k <= |lines|
  {
    if k == 0 || lines[k - 1] == EOL then AwaitingHeader
    else InGroup(VendorQualifies(lines[GroupStart(lines, k - 1)], q))
  }

  /** One step of the scan adds exactly line `k`'s contribution and reaches the state of line `k + 1`. */
  lemma ScanStep(lines: seq<string>, q: Query, k: nat)
    requires k < |lines|
    ensures Scan(lines[k..], q, StateAt(lines, q, k))
         == Contribution(lines, q, k) + Scan(lines[k + 1..], q, StateAt(lines, q, k + 1))
  {
    assert lines[k..][1..] == lines[k + 1..];
    if lines[k] != EOL && k > 0 && lines[k - 1] != EOL {
      assert GroupStart(lines, k) == GroupStart(lines, k - 1);
    }
  }

  lemma Regroup(a: string, b: string, c: string)
    ensures a + (b + c) == (a + b) + c
  {
  }

  lemma {:induction false} ScanFrom(lines: seq<string>, q: Query, k: nat)
    requires k <= |lines|
    ensures Selection(lines, q, k) + Scan(lines[k..], q, StateAt(lines, q, k)) == Selection(lines, q, |lines|)
    decreases |lines| - k
  {
    if k == |lines| {
      assert lines[k..] == [];
    } else {
      var sel, c := Selection(lines, q, k), Contribution(lines, q, k);
      var rest := Scan(lines[k + 1..], q, StateAt(lines, q, k + 1));
      assert Scan(lines[k..], q, StateAt(lines, q, k)) == c + rest by { ScanStep(lines, q, k); }
      assert Selection(lines, q, k + 1) + rest == Selection(lines, q, |lines|) by { ScanFrom(lines, q, k + 1); }
      assert Selection(lines, q, k + 1) == sel + c;
      Regroup(sel, c, rest);
    }
  }

  /**
   * The scan selects, in catalogue order, exactly the item lines whose
   * group header qualifies and which can be prepared in time.
   */
  lemma SuggestionsAreSelection(lines: seq<string>, q: Query)
    ensures Suggestions(lines, q) == Selection(lines, q, |lines|)
  {
    ScanFrom(lines, q, 0);
    assert lines[0..] == lines;
  }

  /** The first line of a catalogue and every non-blank line after a blank one are headers: they never contribute. */
  lemma HeadersContributeNothing(lines: seq<string>, q: Query, i: nat)
    requires i < |lines|
    requires i == 0 || lines[i - 1] == EOL || lines[i] == EOL
    ensures Contribution(lines, q, i) == ""
  {
  }

  // ------------------------------------- the lead time as src/Input.php:70 reads it

  /** A menu item line `name;allergens;<hours>h` and what ends it: `EOL`, or nothing on an unterminated last line. */
  function ItemLine(name: string, allergens: string, hours: nat, eol: string): string
  {
    name + [Delimiter] + allergens + [Delimiter] + Decimal(hours) + "h" + eol
  }

  /** An item line splits into its name, its allergens and its lead time with the terminator. */
  lemma ItemLineFields(name: string, allergens: string, hours: nat, eol: string)
    requires Delimiter !in name && Delimiter !in allergens && (eol == "" || eol == EOL)
    ensures Explode(ItemLine(name, allergens, hours, eol), Delimiter) == [name, allergens, Decimal(hours) + "h" + eol]
    ensures LeadField(ItemLine(name, allergens, hours, eol)) == Decimal(hours) + "h" + eol
    ensures ItemOutput(ItemLine(name, allergens, hours, eol)) == name + [Delimiter] + allergens + EOL
  {
    var d := Decimal(hours);
    assert forall i :: 0 <= i < |d| ==> IsDigit(d[i]);
    assert Delimiter !in d + "h" + eol;
    assert ItemLine(name, allergens, hours, eol) == name + [Delimiter] + allergens + [Delimiter] + (d + "h" + eol);
    ExplodeThree(name, allergens, d + "h" + eol, Delimiter);
  }

  /** `ItemQualifies` with the lead time read by cutting two characters off the third field. */
  predicate ItemQualifiesAsWritten(item: string, q: Query)
  {
    WithinAdvanceTime(q.target, q.now, LeadHoursAsWritten(LeadField(item)))
  }

  function EmitAsWritten(line: string, q: Query, st: ScanState): string
  {
    if line != EOL && st == InGroup(true) && ItemQualifiesAsWritten(line, q) then ItemOutput(line) else ""
  }

  /** The loop of src/Input.php:57-78 with its own lead-time reading. */
  function ScanAsWritten(lines: seq<string>, q: Query, st: ScanState): string
    decreases |lines|
  {
    if lines == [] then "" else EmitAsWritten(lines[0], q, st) + ScanAsWritten(lines[1..], q, Step(lines[0], q, st))
  }

  function SuggestionsAsWritten(lines: seq<string>, q: Query): string
  {
    ScanAsWritten(lines, q, AwaitingHeader)
  }

  /** The two readings of the line's lead time agree. */
  predicate ReadsAlike(line: string)
  {
    LeadHoursAsWritten(LeadField(line)) == LeadHours(LeadField(line))
  }

  /** Every item line of the catalogue reads alike under both readings. */
  predicate ItemsReadAlike(lines: seq<string>)
  {
    forall i :: 0 <= i < |lines| && IsItemLine(lines, i) ==> ReadsAlike(lines[i])
  }

  /** Only blank lines and the first line of each group escape the item check. */
  lemma ItemsReadAlikeByLine(lines: seq<string>)
    requires forall i :: 0 <= i < |lines| ==> lines[i] == EOL || i == 0 || lines[i - 1] == EOL || ReadsAlike(lines[i])
    ensures ItemsReadAlike(lines)
  {
    forall i | 0 <= i < |lines| && IsItemLine(lines, i)
      ensures ReadsAlike(lines[i])
    {
      assert !(i == 0 || lines[i - 1] == EOL);
    }
  }

  /** A vendor group whose items all read alike. */
  lemma GroupReadsAlike(header: string, items: seq<string>)
    requires forall i :: 0 <= i < |items| ==> ReadsAlike(items[i])
    ensures ItemsReadAlike([header] + items)
  {
    var lines := [header] + items;
    assert forall i :: 1 <= i < |lines| ==> lines[i] == items[i - 1];
    ItemsReadAlikeByLine(lines);
  }

  lemma {:induction false} GroupStartPrefix(a: seq<string>, b: seq<string>, i: nat)
    requires i < |a|
    ensures GroupStart(a + b, i) == GroupStart(a, i)
    decreases i
  {
    if i > 0 && a[i - 1] != EOL {
      assert (a + b)[i - 1] == a[i - 1];
      GroupStartPrefix(a, b, i - 1);
    }
  }

  lemma {:induction false} GroupStartAfterBlank(a: seq<string>, b: seq<string>, i: nat)
    requires |a| < i < |a| + 1 + |b|
    ensures GroupStart(a + [EOL] + b, i) == |a| + 1 + GroupStart(b, i - |a| - 1)
    decreases i
  {
    var c := a + [EOL] + b;
    if i > |a| + 1 {
      assert c[i - 1] == b[i - |a| - 2];
      if c[i - 1] != EOL {
        GroupStartAfterBlank(a, b, i - 1);
      }
    }
  }

  /** Joining two catalogues at a blank line keeps their item lines reading alike. */
  lemma ItemsReadAlikeJoin(a: seq<string>, b: seq<string>)
    requires ItemsReadAlike(a) && ItemsReadAlike(b)
    ensures ItemsReadAlike(a + [EOL] + b)
  {
    var c := a + [EOL] + b;
    forall i | 0 <= i < |c| && IsItemLine(c, i)
      ensures ReadsAlike(c[i])
    {
      if i < |a| {
        assert c == a + ([EOL] + b);
        GroupStartPrefix(a, [EOL] + b, i);
        assert c[i] == a[i] && IsItemLine(a, i);
      } else if i > |a| {
        GroupStartAfterBlank(a, b, i);
        assert c[i] == b[i - |a| - 1] && IsItemLine(b, i - |a| - 1);
      }
    }
  }

  /** A terminated item line `…;<n>h` reads alike. */
  lemma TerminatedItemReadsAlike(name: string, allergens: string, hours: nat)
    requires Delimiter !in name && Delimiter !in allergens
    ensures ReadsAlike(ItemLine(name, allergens, hours, EOL))
  {
    ItemLineFields(name, allergens, hours, EOL);
    LeadHoursAsWrittenTerminated(hours);
    LeadHoursRoundTrip(hours, EOL);
  }

  /** The scan's state moves from line `k` to line `k + 1`, and only item lines are read in a group. */
  lemma StateStep(lines: seq<string>, q: Query, k: nat)
    requires k < |lines|
    ensures Step(lines[k], q, StateAt(lines, q, k)) == StateAt(lines, q, k + 1)
    ensures lines[k] != EOL && StateAt(lines, q, k).InGroup? ==> IsItemLine(lines, k)
  {
    if lines[k] != EOL && k > 0 && lines[k - 1] != EOL {
      assert GroupStart(lines, k) == GroupStart(lines, k - 1);
    }
  }

  lemma EmitAlike(line: string, q: Query, st: ScanState)
    requires line != EOL && st.InGroup? ==> ReadsAlike(line)
    ensures EmitAsWritten(line, q, st) == Emit(line, q, st)
  {
  }

  lemma {:induction false} ScanAsWrittenFrom(lines: seq<string>, q: Query, k: nat)
    requires k <= |lines| && ItemsReadAlike(lines)
    ensures ScanAsWritten(lines[k..], q, StateAt(lines, q, k)) == Scan(lines[k..], q, StateAt(lines, q, k))
    decreases |lines| - k
  {
    if k < |lines| {
      var st := StateAt(lines, q, k);
      assert lines[k..][0] == lines[k] && lines[k..][1..] == lines[k + 1..];
      StateStep(lines, q, k);
      EmitAlike(lines[k], q, st);
      ScanAsWrittenFrom(lines, q, k + 1);
    }
  }

  /**
   * Where every item line reads alike, in particular where each ends in
   * `<n>h` and a terminator, the source's reading suggests exactly what the
   * model does.
   */
  lemma AsWrittenAgrees(lines: seq<string>, q: Query)
    requires ItemsReadAlike(lines)
    ensures SuggestionsAsWritten(lines, q) == Suggestions(lines, q)
  {
    ScanAsWrittenFrom(lines, q, 0);
    assert lines[0..] == lines;
  }

  /**
   * A qualifying vendor whose last item `<n>h`, with `n` of two or more
   * digits, has no terminator: with notice between `n / 10` and `n` hours the
   * source suggests the item, which cannot be prepared in time.
   */
  lemma UnterminatedLastItem(header: string, name: string, allergens: string, hours: nat, q: Query)
    requires header != EOL && VendorQualifies(header, q)
    requires Delimiter !in name && Delimiter !in allergens
    requires hours >= 10
    requires q.now + 3600 * (hours / 10) < q.target <= q.now + 3600 * hours
    ensures SuggestionsAsWritten([header, ItemLine(name, allergens, hours, "")], q) == name + [Delimiter] + allergens + EOL
    ensures Suggestions([header, ItemLine(name, allergens, hours, "")], q) == ""
  {
    var item := ItemLine(name, allergens, hours, "");
    ItemLineFields(name, allergens, hours, "");
    assert Decimal(hours) + "h" + "" == Decimal(hours) + "h";
    LeadHoursAsWrittenUnterminated(hours);
    LeadHoursRoundTrip(hours, "");
    assert item[|name|] == Delimiter;
    assert item != EOL;
    var lines: seq<string> := [header, item];
    assert lines[1..] == [item] && lines[2..] == [];
    var st := Step(header, q, AwaitingHeader);
    assert st == InGroup(true);
    assert ItemQualifiesAsWritten(item, q) && !ItemQualifies(item, q);
    assert ScanAsWritten(lines[2..], q, Step(item, q, st)) == "";
    assert EmitAsWritten(item, q, st) == ItemOutput(item);
    assert ScanAsWritten(lines[1..], q, st) == ItemOutput(item) + "";
    assert SuggestionsAsWritten(lines, q) == "" + (ItemOutput(item) + "");
    assert Scan(lines[2..], q, Step(item, q, st)) == "";
    assert Emit(item, q, st) == "";
    assert Scan(lines[1..], q, st) == "" + "";
    assert Suggestions(lines, q) == "" + ("" + "");
  }

  // ------------------------------------------------------ vendor groups

  /** The state the scan is in after reading `lines` from state `st`. */
  function StateAfter(lines: seq<string>, q: Query, st: ScanState): ScanState
    decreases |lines|
  {
    if lines == [] then st else StateAfter(lines[1..], q, Step(lines[0], q, st))
  }

  lemma {:induction false} ScanAppend(a: seq<string>, b: seq<string>, q: Query, st: ScanState)
    ensures Scan(a + b, q, st) == Scan(a, q, st) + Scan(b, q, StateAfter(a, q, st))
    decreases |a|
  {
    if a == [] {
      assert a + b == b;
    } else {
      assert (a + b)[1..] == a[1..] + b;
      ScanAppend(a[1..], b, q, Step(a[0], q, st));
      Regroup(Emit(a[0], q, st), Scan(a[1..], q, Step(a[0], q, st)), Scan(b, q, StateAfter(a, q, st)));
    }
  }

  /** A blank line cuts the catalogue into independent parts: the groups before it do not affect those after it. */
  lemma GroupsAreIndependent(a: seq<string>, b: seq<string>, q: Query)
    ensures Suggestions(a + [EOL] + b, q) == Suggestions(a, q) + Suggestions(b, q)
  {
    ScanAppend(a, [EOL] + b, q, AwaitingHeader);
    assert a + [EOL] + b == a + ([EOL] + b);
    assert ([EOL] + b)[1..] == b;
  }

  lemma {:induction false} SilentItems(items: seq<string>, q: Query)
    requires forall i :: 0 <= i < |items| ==> items[i] != EOL
    ensures Scan(items, q, InGroup(false)) == ""
    decreases |items|
  {
    if items != [] {
      SilentItems(items[1..], q);
    }
  }

  /** The items of a vendor that cannot deliver to the area or cannot cover the order produce nothing. */
  lemma IneligibleGroupIsSilent(header: string, items: seq<string>, q: Query)
    requires header != EOL && !VendorQualifies(header, q)
    requires forall i :: 0 <= i < |items| ==> items[i] != EOL
    ensures Suggestions([header] + items, q) == ""
  {
    assert ([header] + items)[1..] == items;
    SilentItems(items, q);
  }

  /** The outputs of the items, in order, that can be prepared in time. */
  function ReadyItems(items: seq<string>, q: Query): string
    decreases |items|
  {
    if items == [] then ""
    else (if ItemQualifies(items[0], q) then ItemOutput(items[0]) else "") + ReadyItems(items[1..], q)
  }

  lemma {:induction false} ReadyScan(items: seq<string>, q: Query)
    requires forall i :: 0 <= i < |items| ==> items[i] != EOL
    ensures Scan(items, q, InGroup(true)) == ReadyItems(items, q)
    decreases |items|
  {
    if items != [] {
      ReadyScan(items[1..], q);
    }
  }

  /** Every item of a vendor that delivers to the area and can cover the order is suggested exactly when it is ready in time. */
  lemma EligibleGroup(header: string, items: seq<string>, q: Query)
    requires header != EOL && VendorQualifies(header, q)
    requires forall i :: 0 <= i < |items| ==> items[i] != EOL
    ensures Suggestions([header] + items, q) == ReadyItems(items, q)
  {
    assert ([header] + items)[1..] == items;
    ReadyScan(items, q);
  }

  lemma {:induction false} NoNoticeScan(lines: seq<string>, q: Query, st: ScanState)
    requires q.target <= q.now
    ensures Scan(lines, q, st) == ""
    decreases |lines|
  {
    if lines != [] {
      NoNoticeScan(lines[1..], q, Step(lines[0], q, st));
    }
  }

  /** The notice check is strict: with no time between now and the target nothing is suggested, whatever the catalogue. */
  lemma NoNoticeNoSuggestions(lines: seq<string>, q: Query)
    requires q.target <= q.now
    ensures Suggestions(lines, q) == ""
  {
    NoNoticeScan(lines, q, AwaitingHeader);
  }
}

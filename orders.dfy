/**
 * The `Input` class of src/Input.php: a constructor that checks the five
 * positional inputs of an order and keeps them, a hook that fixes "now", and
 * `getSuggestions`, the loop over the vendor catalogue.
 *
 * The catalogue file's content is passed to `GetSuggestions` as the lines
 * `fgets` would return; which files exist is passed to `Create` as a set of
 * paths; the wall clock is passed as a number of seconds.
 */
module Orders {
  import opened Wrappers
  import opened Strings
  import opened Patterns
  import opened Calendar
  import opened Matching

  /** One positional input: text, as from the command line, or an integer, as the unit tests pass some. */
  datatype Arg = Text(text: string) | Number(number: int)

  /** The value a `string` parameter receives: an integer becomes its decimal text. */
  function AsString(a: Arg): string
  {
    match a
    case Text(s) => s
    case Number(n) => IntText(n)
  }

  /** The value an `int` parameter receives: integer text is converted; other text is a type error (`None`). */
  function AsInt(a: Arg): Option<int>
  {
    match a
    case Number(n) => Some(n)
    case Text(s) => ParseInt(s)
  }

  /** Why construction fails. All but `CoversNotAnInteger` are `InvalidArgumentException`s. */
  datatype InputError =
    | WrongArgumentCount(rightFormat: string)
    | FileNotFound(filename: string)
    | InvalidDate
    | InvalidTime
    | InvalidPostcode
    | CoversNotAnInteger
    | InvalidCovers

  /** The words of the usage line `filename dd/mm/yy hh:mm postcode amount`. */
  const RightInputWords: seq<string> := ["filename", "dd/mm/yy", "hh:mm", "postcode", "amount"]

  /** The usage line the argument-count error reports. */
  const RightInputFormat: string := Join(RightInputWords, ' ')

  lemma JoinFive(a: string, b: string, c: string, e: string, f: string, d: char)
    ensures Join([a, b, c, e, f], d) == a + [d] + b + [d] + c + [d] + e + [d] + f
  {
    assert [e, f][1..] == [f];
    assert Join([e, f], d) == e + [d] + f;
    assert [c, e, f][1..] == [e, f];
    assert Join([c, e, f], d) == c + [d] + e + [d] + f;
    assert [b, c, e, f][1..] == [c, e, f];
    assert Join([b, c, e, f], d) == b + [d] + c + [d] + e + [d] + f;
    assert [a, b, c, e, f][1..] == [b, c, e, f];
  }

  /** The usage line is the text src/Input.php:12 declares. */
  lemma RightInputFormatText()
    ensures RightInputFormat == "filename dd/mm/yy hh:mm postcode amount"
  {
    JoinFive("filename", "dd/mm/yy", "hh:mm", "postcode", "amount", ' ');
    assert "filename" + " " + "dd/mm/yy" + " " + "hh:mm" + " " + "postcode" + " " + "amount"
        == "filename dd/mm/yy hh:mm postcode amount";
  }

  /** The number of inputs expected: the number of space-separated words of the format. */
  function RightNrOfArguments(): nat
  {
    |Explode(RightInputFormat, ' ')|
  }

  lemma RightNrOfArgumentsIsFive()
    ensures RightNrOfArguments() == 5
  {
    ExplodeJoin(RightInputWords, ' ');
  }

  /** Where the catalogue named `filename` lives, relative to the directory of the source. */
  function VendorFilePath(dir: string, filename: string): string
  {
    dir + "/../data/" + filename
  }

  /**
   * The date and time fields read from a `dd/mm/yy` date and an `h:mm` or
   * `hh:mm` time: they are the numbers written there, so writing them back
   * gives the same text.
   */
  function MomentOf(date: string, time: string): (t: Moment)
    requires DateShape(date) && TimeShape(time)
    ensures 1 <= t.day <= 31 && 1 <= t.month <= 12 && t.year <= 99
    ensures t.hour <= 23 && t.minute <= 59
    ensures date == TwoDigits(t.day) + "/" + TwoDigits(t.month) + "/" + TwoDigits(t.year)
    ensures |time| == 4 ==> t.hour <= 9 && time == [DigitChar(t.hour)] + ":" + TwoDigits(t.minute)
    ensures |time| == 5 ==> time == TwoDigits(t.hour) + ":" + TwoDigits(t.minute)
  {
    TwoDigitsOfValue(date[0], date[1]);
    TwoDigitsOfValue(date[3], date[4]);
    TwoDigitsOfValue(date[6], date[7]);
    TwoDigitsOfValue(time[|time| - 2], time[|time| - 1]);
    HourText(time[..|time| - 3]);
    var t := Moment(TwoDigitValue(date[6], date[7]), TwoDigitValue(date[3], date[4]), TwoDigitValue(date[0], date[1]),
                    NumberValue(time[..|time| - 3]), TwoDigitValue(time[|time| - 2], time[|time| - 1]));
    if |time| == 5 then TwoDigitsOfValue(time[0], time[1]); t else t
  }

  /** Reading back a date and time written from in-range fields gives those fields. */
  lemma MomentOfWritten(year: nat, month: nat, day: nat, hour: nat, minute: nat)
    requires 1 <= day <= 31 && 1 <= month <= 12 && year <= 99 && hour <= 23 && minute <= 59
    ensures var date := TwoDigits(day) + "/" + TwoDigits(month) + "/" + TwoDigits(year);
            var time := TwoDigits(hour) + ":" + TwoDigits(minute);
            DateShape(date) && TimeShape(time) && MomentOf(date, time) == Moment(year, month, day, hour, minute)
  {
    var date := TwoDigits(day) + "/" + TwoDigits(month) + "/" + TwoDigits(year);
    var time := TwoDigits(hour) + ":" + TwoDigits(minute);
    var h := TwoDigits(hour);
    assert time[..2] == h;
    HourText(h);
    assert DateShape(date);
    assert TimeShape(time);
    var t := MomentOf(date, time);
    assert date[..2] == TwoDigits(t.day) && date[..2] == TwoDigits(day);
    assert date[3..5] == TwoDigits(t.month) && date[3..5] == TwoDigits(month);
    assert date[6..] == TwoDigits(t.year) && date[6..] == TwoDigits(year);
    assert time[..2] == TwoDigits(t.hour);
    assert time[3..] == TwoDigits(t.minute) && time[3..] == TwoDigits(minute);
  }

  /** The fields a constructed `Input` holds. */
  datatype Order = Order(pathToVendorFile: string, datetime: Moment, postcode: string, covers: int)

  /** What construction guarantees of every order, so that nothing downstream checks again. */
  predicate ValidOrder(o: Order)
  {
    && 1 <= o.datetime.day <= 31 && 1 <= o.datetime.month <= 12 && o.datetime.year <= 99
    && o.datetime.hour <= 23 && o.datetime.minute <= 59
    && WholeMatch(PostcodeShape, o.postcode)
    && o.covers >= 1
  }

  /**
   * The checks of the constructor in their order: the number of inputs, the
   * catalogue file, the date, the time, the postcode, the covers. The first
   * that fails decides the error.
   */
  function Validate(input: seq<Arg>, dir: string, files: set<string>): (r: Result<Order, InputError>)
    ensures |input| != 5 ==> r == Failure(WrongArgumentCount(RightInputFormat))
    ensures r.Success? <==>
      && |input| == 5
      && VendorFilePath(dir, AsString(input[0])) in files
      && WholeMatch(DateShape, AsString(input[1]))
      && WholeMatch(TimeShape, AsString(input[2]))
      && WholeMatch(PostcodeShape, AsString(input[3]))
      && AsInt(input[4]).Some? && AsInt(input[4]).value >= 1
    ensures r.Success? ==>
      && ValidOrder(r.value)
      && r.value.pathToVendorFile == VendorFilePath(dir, AsString(input[0]))
      && r.value.postcode == AsString(input[3])
      && r.value.covers == AsInt(input[4]).value
    ensures r.Success? ==>
      r.value.datetime == MomentOf(Matched(DateShape, AsString(input[1])), Matched(TimeShape, AsString(input[2])))
    ensures |input| == 5 && VendorFilePath(dir, AsString(input[0])) !in files
            ==> r == Failure(FileNotFound(AsString(input[0])))
    ensures |input| == 5 && VendorFilePath(dir, AsString(input[0])) in files
            && !WholeMatch(DateShape, AsString(input[1]))
            ==> r == Failure(InvalidDate)
    ensures |input| == 5 && VendorFilePath(dir, AsString(input[0])) in files
            && WholeMatch(DateShape, AsString(input[1])) && !WholeMatch(TimeShape, AsString(input[2]))
            ==> r == Failure(InvalidTime)
    ensures |input| == 5 && VendorFilePath(dir, AsString(input[0])) in files
            && WholeMatch(DateShape, AsString(input[1])) && WholeMatch(TimeShape, AsString(input[2]))
            && !WholeMatch(PostcodeShape, AsString(input[3]))
            ==> r == Failure(InvalidPostcode)
    ensures |input| == 5 && VendorFilePath(dir, AsString(input[0])) in files
            && WholeMatch(DateShape, AsString(input[1])) && WholeMatch(TimeShape, AsString(input[2]))
            && WholeMatch(PostcodeShape, AsString(input[3])) && AsInt(input[4]).None?
            ==> r == Failure(CoversNotAnInteger)
    ensures |input| == 5 && VendorFilePath(dir, AsString(input[0])) in files
            && WholeMatch(DateShape, AsString(input[1])) && WholeMatch(TimeShape, AsString(input[2]))
            && WholeMatch(PostcodeShape, AsString(input[3])) && AsInt(input[4]).Some? && AsInt(input[4]).value < 1
            ==> r == Failure(InvalidCovers)
  {
    RightNrOfArgumentsIsFive();
    if |input| != RightNrOfArguments() then Failure(WrongArgumentCount(RightInputFormat))
    else
      var filename := AsString(input[0]);
      var date, time, postcode := AsString(input[1]), AsString(input[2]), AsString(input[3]);
      if VendorFilePath(dir, filename) !in files then Failure(FileNotFound(filename))
      else if !WholeMatch(DateShape, date) then Failure(InvalidDate)
      else if !WholeMatch(TimeShape, time) then Failure(InvalidTime)
      else if !WholeMatch(PostcodeShape, postcode) then Failure(InvalidPostcode)
      else if AsInt(input[4]).None? then Failure(CoversNotAnInteger)
      else if AsInt(input[4]).value < 1 then Failure(InvalidCovers)
      else
        var datetime := MomentOf(Matched(DateShape, date), Matched(TimeShape, time));
        Success(Order(VendorFilePath(dir, filename), datetime, postcode, AsInt(input[4]).value))
  }

  class Input {
    const pathToVendorFile: string
    const datetime: Moment
    const postcode: string
    const covers: int
    /** The time `setCurrentTime` fixed, in seconds, if any. */
    var runAsIfDatetime: Option<int>

    function AsOrder(): Order
    {
      Order(pathToVendorFile, datetime, postcode, covers)
    }

    predicate Valid()
    {
      ValidOrder(AsOrder())
    }

    /** Keeps the fields of an order that passed every check. */
    constructor FromOrder(o: Order)
      requires ValidOrder(o)
      ensures Valid() && AsOrder() == o && runAsIfDatetime == None
    {
      pathToVendorFile, datetime, postcode, covers := o.pathToVendorFile, o.datetime, o.postcode, o.covers;
      runAsIfDatetime := None;
    }

    /** `new Input($input)`: the checks one after another; the first to fail is the error thrown. */
    static method Create(input: seq<Arg>, dir: string, files: set<string>) returns (r: Result<Input, InputError>)
      ensures r.Failure? ==> Validate(input, dir, files) == Failure(r.error)
      ensures r.Success? ==>
        && fresh(r.value) && r.value.Valid() && r.value.runAsIfDatetime == None
        && Validate(input, dir, files) == Success(r.value.AsOrder())
    {
      RightNrOfArgumentsIsFive();
      if |input| != RightNrOfArguments() {
        return Failure(WrongArgumentCount(RightInputFormat));
      }
      var filename := AsString(input[0]);
      var fullPath := VendorFilePath(dir, filename);
      if fullPath !in files {
        return Failure(FileNotFound(filename));
      }
      var date, time := AsString(input[1]), AsString(input[2]);
      if !WholeMatch(DateShape, date) {
        return Failure(InvalidDate);
      }
      if !WholeMatch(TimeShape, time) {
        return Failure(InvalidTime);
      }
      var datetime := MomentOf(Matched(DateShape, date), Matched(TimeShape, time));
      var postcode := AsString(input[3]);
      if !WholeMatch(PostcodeShape, postcode) {
        return Failure(InvalidPostcode);
      }
      var covers := AsInt(input[4]);
      if covers.None? {
        return Failure(CoversNotAnInteger);
      }
      if covers.value < 1 {
        return Failure(InvalidCovers);
      }
      var order := new Input.FromOrder(Order(fullPath, datetime, postcode, covers.value));
      return Success(order);
    }

    /** `setCurrentTime`: from now on "now" is `t`. */
    method SetCurrentTime(t: int)
      modifies this
      ensures runAsIfDatetime == Some(t)
    {
      runAsIfDatetime := Some(t);
    }

    /** `getCurrentTimestamp`: the fixed time when one was set, the wall clock otherwise. */
    function CurrentTimestamp(clock: int): (now: int)
      reads this
      ensures runAsIfDatetime.Some? ==> now == runAsIfDatetime.value
      ensures runAsIfDatetime.None? ==> now == clock
    {
      match runAsIfDatetime
      case Some(t) => t
      case None => clock
    }

    /** What this order asks of the catalogue when the wall clock reads `clock`. */
    function QueryAt(clock: int): Query
      requires Valid()
      reads this
    {
      Query(AreaOfPostcode(postcode), covers, Timestamp(datetime), CurrentTimestamp(clock))
    }

    /**
     * `getSuggestions`: one pass over the catalogue lines with the flags
     * `newVendor` and `suggestVendor`, appending `name;allergens` and a line
     * terminator for every item that qualifies.
     */
    method GetSuggestions(catalogue: seq<string>, clock: int) returns (suggestions: string)
      requires Valid()
      ensures suggestions == Suggestions(catalogue, QueryAt(clock))
      ensures suggestions == Selection(catalogue, QueryAt(clock), |catalogue|)
      ensures ItemsReadAlike(catalogue) ==> suggestions == SuggestionsAsWritten(catalogue, QueryAt(clock))
    {
      ghost var q := QueryAt(clock);
      var target := Timestamp(datetime);
      var now := CurrentTimestamp(clock);
      suggestions := "";
      var suggestVendor := false;
      var newVendor := true;
      var i := 0;
      while i < |catalogue|
        invariant i <= |catalogue|
        invariant suggestions + Scan(catalogue[i..], q, if newVendor then AwaitingHeader else InGroup(suggestVendor))
               == Suggestions(catalogue, q)
      {
        var line := catalogue[i];
        ghost var st, before := if newVendor then AwaitingHeader else InGroup(suggestVendor), suggestions;
        if line == EOL {
          newVendor := true;
        } else {
          if newVendor {
            var v := Explode(line, Delimiter);
            var vendorPostcode := Field(v, 1);
            var vendorCanCover := Field(v, 2);
            var canDeliver := AreaOfPostcode(vendorPostcode) == AreaOfPostcode(postcode);
            var canCover := LeadingNat(vendorCanCover) >= covers;
            suggestVendor := canDeliver && canCover;
          } else if suggestVendor {
            var advanceTimeNeeded := LeadHours(LeadField(line));
            if WithinAdvanceTime(target, now, advanceTimeNeeded) {
              var s := Explode(line, Delimiter);
              suggestions := suggestions + Field(s, 0) + [Delimiter] + Field(s, 1) + EOL;
            }
          }
          newVendor := false;
        }
        assert suggestions == before + Emit(line, q, st);
        assert (if newVendor then AwaitingHeader else InGroup(suggestVendor)) == Step(line, q, st);
        assert catalogue[i..][1..] == catalogue[i + 1..];
        Regroup(before, Emit(line, q, st), Scan(catalogue[i + 1..], q, Step(line, q, st)));
        i := i + 1;
      }
      assert catalogue[i..] == [];
      SuggestionsAreSelection(catalogue, q);
      if ItemsReadAlike(catalogue) {
        AsWrittenAgrees(catalogue, q);
      }
    }
  }
}

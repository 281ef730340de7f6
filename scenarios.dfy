/**
 * The cases of tests/InputTest.php worked through the model: the inputs the
 * constructor must refuse, and the six catalogue queries with their expected
 * suggestions, against the four-vendor catalogue the tests assume.
 */
module Scenarios {
  import opened Wrappers
  import opened Strings
  import opened Patterns
  import opened Calendar
  import opened Matching
  import opened Orders

  // ----------------------------------------------------------- catalogue

  /** A vendor header `name;postcode;capacity`. */
  function VendorLine(name: string, postcode: string, capacity: nat): (line: string)
    ensures |line| > 1 && line[|line| - 1] == '\n'
  {
    name + ";" + postcode + ";" + Decimal(capacity) + EOL
  }

  /** A menu item `name;allergens;<hours>h`. */
  function MenuLine(name: string, allergens: string, hours: nat): (line: string)
    ensures |line| > 1 && line[|line| - 1] == '\n'
  {
    name + ";" + allergens + ";" + Decimal(hours) + "h" + EOL
  }

  const GrainAndLeaf: seq<string> := [VendorLine("Grain and Leaf", "E32NY", 100), MenuLine("Grain salad", "nuts", 12)]
  const Wholegrains: seq<string> := [VendorLine("Wholegrains", "SW34DA", 20), MenuLine("The Classic", "gluten", 24)]
  const GhanaKitchen: seq<string> :=
    [ VendorLine("Ghana Kitchen", "NW42QA", 40),
      MenuLine("Premium meat selection", "", 36),
      MenuLine("Breakfast", "gluten,eggs", 12) ]
  const WellKneaded: seq<string> :=
    [VendorLine("Well Kneaded", "EC32BA", 150), MenuLine("Full English breakfast", "gluten", 24)]

  /** The lines of `vendors.txt` as the tests assume it: four vendors separated by blank lines. */
  const Vendors: seq<string> := GrainAndLeaf + [EOL] + Wholegrains + [EOL] + GhanaKitchen + [EOL] + WellKneaded

  /** Ghana Kitchen's lines as they stand in the file. */
  lemma GhanaKitchenText()
    ensures GhanaKitchen == ["Ghana Kitchen;NW42QA;40\n", "Premium meat selection;;36h\n", "Breakfast;gluten,eggs;12h\n"]
  {
    assert Decimal(40) == "40";
    assert VendorLine("Ghana Kitchen", "NW42QA", 40) == "Ghana Kitchen;NW42QA;40\n";
    assert Decimal(36) == "36";
    assert MenuLine("Premium meat selection", "", 36) == "Premium meat selection;;36h\n";
    assert Decimal(12) == "12";
    assert MenuLine("Breakfast", "gluten,eggs", 12) == "Breakfast;gluten,eggs;12h\n";
  }

  /** A vendor qualifies when the areas agree and its capacity suffices. */
  lemma VendorLineQualifies(name: string, postcode: string, capacity: nat, q: Query)
    requires ';' !in name && ';' !in postcode
    ensures VendorQualifies(VendorLine(name, postcode, capacity), q)
        <==> AreaOfPostcode(postcode) == q.area && capacity >= q.covers
  {
    var d := Decimal(capacity);
    assert forall i :: 0 <= i < |d| ==> d[i] != ';';
    ExplodeThree(name, postcode, d + EOL, ';');
    assert VendorLine(name, postcode, capacity) == name + ";" + postcode + ";" + (d + EOL);
    LeadingNatOfDecimal(capacity, EOL);
  }

  /** An item qualifies with more than `hours` hours of notice, and suggests `name;allergens`. */
  lemma MenuLineQualifies(name: string, allergens: string, hours: nat, q: Query)
    requires ';' !in name && ';' !in allergens
    ensures ItemQualifies(MenuLine(name, allergens, hours), q) <==> q.target > q.now + 3600 * hours
    ensures ItemOutput(MenuLine(name, allergens, hours)) == name + ";" + allergens + EOL
  {
    var d := Decimal(hours);
    assert forall i :: 0 <= i < |d| ==> d[i] != ';';
    ExplodeThree(name, allergens, d + "h" + EOL, ';');
    assert MenuLine(name, allergens, hours) == name + ";" + allergens + ";" + (d + "h" + EOL);
    LeadHoursRoundTrip(hours, EOL);
  }

  /** A catalogue item reads the same under the source's lead-time reading and the intended one. */
  lemma MenuLineReadsAlike(name: string, allergens: string, hours: nat)
    requires ';' !in name && ';' !in allergens
    ensures ReadsAlike(MenuLine(name, allergens, hours))
  {
    assert MenuLine(name, allergens, hours) == ItemLine(name, allergens, hours, EOL);
    TerminatedItemReadsAlike(name, allergens, hours);
  }

  /** Every item of the tests' catalogue ends in `<n>h` and a terminator, so the two readings agree on it. */
  lemma VendorsReadAlike()
    ensures ItemsReadAlike(Vendors)
  {
    ServingGroupReadsAlike(VendorLine("Grain and Leaf", "E32NY", 100), "Grain salad", "nuts", 12);
    ServingGroupReadsAlike(VendorLine("Wholegrains", "SW34DA", 20), "The Classic", "gluten", 24);
    ServingGroupReadsAlike(VendorLine("Well Kneaded", "EC32BA", 150), "Full English breakfast", "gluten", 24);
    MenuLineReadsAlike("Premium meat selection", "", 36);
    MenuLineReadsAlike("Breakfast", "gluten,eggs", 12);
    var items := [MenuLine("Premium meat selection", "", 36), MenuLine("Breakfast", "gluten,eggs", 12)];
    GroupReadsAlike(VendorLine("Ghana Kitchen", "NW42QA", 40), items);
    assert GhanaKitchen == [VendorLine("Ghana Kitchen", "NW42QA", 40)] + items;
    ItemsReadAlikeJoin(GrainAndLeaf, Wholegrains);
    ItemsReadAlikeJoin(GrainAndLeaf + [EOL] + Wholegrains, GhanaKitchen);
    ItemsReadAlikeJoin(GrainAndLeaf + [EOL] + Wholegrains + [EOL] + GhanaKitchen, WellKneaded);
  }

  lemma ServingGroupReadsAlike(header: string, name: string, allergens: string, hours: nat)
    requires ';' !in name && ';' !in allergens
    ensures ItemsReadAlike([header, MenuLine(name, allergens, hours)])
  {
    MenuLineReadsAlike(name, allergens, hours);
    GroupReadsAlike(header, [MenuLine(name, allergens, hours)]);
    assert [header, MenuLine(name, allergens, hours)] == [header] + [MenuLine(name, allergens, hours)];
  }

  /** On the tests' catalogue the source's scan suggests what the model's does. */
  lemma SourceReading(q: Query)
    ensures SuggestionsAsWritten(Vendors, q) == Suggestions(Vendors, q)
  {
    VendorsReadAlike();
    AsWrittenAgrees(Vendors, q);
  }

  /** `setCurrentTime(new DateTime('2015-10-20 00:00'))` */
  const Now: Moment := Moment(15, 10, 20, 0, 0)

  /** The query of the tests: the area of the order's postcode, covers, and the target and now in seconds. */
  function TestQuery(area: string, covers: int, target: Moment): Query
    requires target.year <= 99 && 1 <= target.month <= 12
  {
    Query(area, covers, Timestamp(target), Timestamp(Now))
  }

  /** The groups are read one by one. */
  lemma ByGroup(q: Query)
    ensures Suggestions(Vendors, q)
         == Suggestions(GrainAndLeaf, q) + Suggestions(Wholegrains, q)
          + Suggestions(GhanaKitchen, q) + Suggestions(WellKneaded, q)
  {
    GroupsAreIndependent(GrainAndLeaf + [EOL] + Wholegrains + [EOL] + GhanaKitchen, WellKneaded, q);
    GroupsAreIndependent(GrainAndLeaf + [EOL] + Wholegrains, GhanaKitchen, q);
    GroupsAreIndependent(GrainAndLeaf, Wholegrains, q);
  }

  /** A vendor that does not serve the order suggests nothing, whatever its items. */
  lemma SilentVendor(name: string, postcode: string, capacity: nat, items: seq<string>, q: Query)
    requires ';' !in name && ';' !in postcode
    requires AreaOfPostcode(postcode) != q.area || capacity < q.covers
    requires forall i :: 0 <= i < |items| ==> |items[i]| > 1
    ensures Suggestions([VendorLine(name, postcode, capacity)] + items, q) == ""
  {
    VendorLineQualifies(name, postcode, capacity, q);
    IneligibleGroupIsSilent(VendorLine(name, postcode, capacity), items, q);
  }

  /** A vendor that serves the order suggests each of its two items that has enough notice, in file order. */
  lemma ServingVendor(name: string, postcode: string, capacity: nat,
                      first: string, firstAllergens: string, firstHours: nat,
                      second: string, secondAllergens: string, secondHours: nat, q: Query)
    requires ';' !in name && ';' !in postcode
    requires ';' !in first && ';' !in firstAllergens && ';' !in second && ';' !in secondAllergens
    requires AreaOfPostcode(postcode) == q.area && capacity >= q.covers
    ensures Suggestions([VendorLine(name, postcode, capacity), MenuLine(first, firstAllergens, firstHours),
                         MenuLine(second, secondAllergens, secondHours)], q)
         == (if q.target > q.now + 3600 * firstHours then first + ";" + firstAllergens + EOL else "")
          + (if q.target > q.now + 3600 * secondHours then second + ";" + secondAllergens + EOL else "")
  {
    var header := VendorLine(name, postcode, capacity);
    var one, two := MenuLine(first, firstAllergens, firstHours), MenuLine(second, secondAllergens, secondHours);
    VendorLineQualifies(name, postcode, capacity, q);
    MenuLineQualifies(first, firstAllergens, firstHours, q);
    MenuLineQualifies(second, secondAllergens, secondHours, q);
    assert [header, one, two] == [header] + [one, two];
    EligibleGroup(header, [one, two], q);
    var a := if ItemQualifies(one, q) then ItemOutput(one) else "";
    var b := if ItemQualifies(two, q) then ItemOutput(two) else "";
    assert [one, two][1..] == [two] && [two][1..] == [];
    assert ReadyItems([two], q) == b + "";
    assert b + "" == b;
  }

  lemma GrainAndLeafSilent(q: Query)
    requires q.area != "E"
    ensures Suggestions(GrainAndLeaf, q) == ""
  {
    assert AreaOfPostcode("E32NY") == "E";
    SilentVendor("Grain and Leaf", "E32NY", 100, GrainAndLeaf[1..], q);
    assert GrainAndLeaf == [GrainAndLeaf[0]] + GrainAndLeaf[1..];
  }

  lemma WholegrainsSilent(q: Query)
    requires q.area != "SW"
    ensures Suggestions(Wholegrains, q) == ""
  {
    assert AreaOfPostcode("SW34DA") == "SW";
    SilentVendor("Wholegrains", "SW34DA", 20, Wholegrains[1..], q);
    assert Wholegrains == [Wholegrains[0]] + Wholegrains[1..];
  }

  lemma WellKneadedSilent(q: Query)
    requires q.area != "EC"
    ensures Suggestions(WellKneaded, q) == ""
  {
    assert AreaOfPostcode("EC32BA") == "EC";
    SilentVendor("Well Kneaded", "EC32BA", 150, WellKneaded[1..], q);
    assert WellKneaded == [WellKneaded[0]] + WellKneaded[1..];
  }

  /** Ghana Kitchen delivers to `NW` only and feeds at most 40. */
  lemma GhanaKitchenSilent(q: Query)
    requires q.area != "NW" || q.covers > 40
    ensures Suggestions(GhanaKitchen, q) == ""
  {
    assert AreaOfPostcode("NW42QA") == "NW";
    SilentVendor("Ghana Kitchen", "NW42QA", 40, GhanaKitchen[1..], q);
    assert GhanaKitchen == [GhanaKitchen[0]] + GhanaKitchen[1..];
  }

  /** For up to 40 covers in area `NW`, Ghana Kitchen suggests each item with enough notice. */
  lemma GhanaKitchenSuggests(q: Query)
    requires q.area == "NW" && q.covers <= 40
    ensures Suggestions(GhanaKitchen, q)
         == (if q.target > q.now + 3600 * 36 then "Premium meat selection" + ";" + "" + EOL else "")
          + (if q.target > q.now + 3600 * 12 then "Breakfast" + ";" + "gluten,eggs" + EOL else "")
  {
    assert AreaOfPostcode("NW42QA") == "NW";
    ServingVendor("Ghana Kitchen", "NW42QA", 40, "Premium meat selection", "", 36, "Breakfast", "gluten,eggs", 12, q);
  }

  /** The suggestions for any order in area `NW`: only Ghana Kitchen's items can appear. */
  lemma NorthWest(q: Query)
    requires q.area == "NW"
    ensures q.covers > 40 ==> Suggestions(Vendors, q) == ""
    ensures q.covers <= 40 ==>
      Suggestions(Vendors, q)
      == (if q.target > q.now + 3600 * 36 then "Premium meat selection" + ";" + "" + EOL else "")
       + (if q.target > q.now + 3600 * 12 then "Breakfast" + ";" + "gluten,eggs" + EOL else "")
  {
    ByGroup(q);
    GrainAndLeafSilent(q);
    WholegrainsSilent(q);
    WellKneadedSilent(q);
    if q.covers > 40 {
      GhanaKitchenSilent(q);
    } else {
      GhanaKitchenSuggests(q);
    }
  }

  /** No vendor delivers outside areas `E`, `SW`, `NW` and `EC`. */
  lemma NoVendorInArea(q: Query)
    requires q.area != "E" && q.area != "SW" && q.area != "NW" && q.area != "EC"
    ensures Suggestions(Vendors, q) == ""
  {
    ByGroup(q);
    GrainAndLeafSilent(q);
    WholegrainsSilent(q);
    WellKneadedSilent(q);
    GhanaKitchenSilent(q);
  }

  // --------------------------------------------------- getSuggestions cases

  /** The notice the test orders give: four days and eleven hours, one day and eleven hours, none. */
  lemma Notice()
    ensures Timestamp(Moment(15, 10, 24, 11, 0)) == Timestamp(Now) + 385200
    ensures Timestamp(Moment(15, 10, 21, 11, 0)) == Timestamp(Now) + 126000
  {
  }

  lemma Areas()
    ensures AreaOfPostcode("W69AX") == "W"
    ensures AreaOfPostcode("NW43QB") == "NW"
  {
  }

  lemma Outputs()
    ensures "Premium meat selection" + ";" + "" + EOL + ("Breakfast" + ";" + "gluten,eggs" + EOL)
         == "Premium meat selection;\nBreakfast;gluten,eggs\n"
    ensures "Breakfast" + ";" + "gluten,eggs" + EOL == "Breakfast;gluten,eggs\n"
  {
  }

  /** 'No matching area': `W69AX` lies in area `W`, where no vendor delivers. */
  lemma NoMatchingArea()
    ensures Suggestions(Vendors, TestQuery(AreaOfPostcode("W69AX"), 1, Moment(15, 10, 24, 11, 0))) == ""
    ensures SuggestionsAsWritten(Vendors, TestQuery(AreaOfPostcode("W69AX"), 1, Moment(15, 10, 24, 11, 0))) == ""
  {
    SourceReading(TestQuery(AreaOfPostcode("W69AX"), 1, Moment(15, 10, 24, 11, 0)));
    Areas();
    NoVendorInArea(TestQuery("W", 1, Moment(15, 10, 24, 11, 0)));
  }

  /** 'Matching area': four days and eleven hours of notice cover both of Ghana Kitchen's items. */
  lemma MatchingArea()
    ensures Suggestions(Vendors, TestQuery(AreaOfPostcode("NW43QB"), 1, Moment(15, 10, 24, 11, 0)))
         == "Premium meat selection;\nBreakfast;gluten,eggs\n"
    ensures SuggestionsAsWritten(Vendors, TestQuery(AreaOfPostcode("NW43QB"), 1, Moment(15, 10, 24, 11, 0)))
         == "Premium meat selection;\nBreakfast;gluten,eggs\n"
  {
    SourceReading(TestQuery(AreaOfPostcode("NW43QB"), 1, Moment(15, 10, 24, 11, 0)));
    Areas();
    Notice();
    Outputs();
    NorthWest(TestQuery("NW", 1, Moment(15, 10, 24, 11, 0)));
  }

  /** 'Not enough notice given': the target is now itself. */
  lemma NotEnoughNotice()
    ensures Suggestions(Vendors, TestQuery(AreaOfPostcode("NW43QB"), 1, Moment(15, 10, 20, 0, 0))) == ""
    ensures SuggestionsAsWritten(Vendors, TestQuery(AreaOfPostcode("NW43QB"), 1, Moment(15, 10, 20, 0, 0))) == ""
  {
    SourceReading(TestQuery(AreaOfPostcode("NW43QB"), 1, Moment(15, 10, 20, 0, 0)));
    NoNoticeNoSuggestions(Vendors, TestQuery(AreaOfPostcode("NW43QB"), 1, Moment(15, 10, 20, 0, 0)));
  }

  /** 'Enough notice for some items': 35 hours suffice for the 12-hour item only. */
  lemma EnoughNoticeForSome()
    ensures Suggestions(Vendors, TestQuery(AreaOfPostcode("NW43QB"), 1, Moment(15, 10, 21, 11, 0)))
         == "Breakfast;gluten,eggs\n"
    ensures SuggestionsAsWritten(Vendors, TestQuery(AreaOfPostcode("NW43QB"), 1, Moment(15, 10, 21, 11, 0)))
         == "Breakfast;gluten,eggs\n"
  {
    SourceReading(TestQuery(AreaOfPostcode("NW43QB"), 1, Moment(15, 10, 21, 11, 0)));
    Areas();
    Notice();
    Outputs();
    NorthWest(TestQuery("NW", 1, Moment(15, 10, 21, 11, 0)));
  }

  /** 'Can exactly cover the requested amount': 40 covers from a vendor that feeds 40. */
  lemma ExactCapacity()
    ensures Suggestions(Vendors, TestQuery(AreaOfPostcode("NW43QB"), 40, Moment(15, 10, 21, 11, 0)))
         == "Breakfast;gluten,eggs\n"
    ensures SuggestionsAsWritten(Vendors, TestQuery(AreaOfPostcode("NW43QB"), 40, Moment(15, 10, 21, 11, 0)))
         == "Breakfast;gluten,eggs\n"
  {
    SourceReading(TestQuery(AreaOfPostcode("NW43QB"), 40, Moment(15, 10, 21, 11, 0)));
    Areas();
    Notice();
    Outputs();
    NorthWest(TestQuery("NW", 40, Moment(15, 10, 21, 11, 0)));
  }

  /** 'Can not cover the requested amount': 50 covers are more than any `NW` vendor feeds. */
  lemma CapacityExceeded()
    ensures Suggestions(Vendors, TestQuery(AreaOfPostcode("NW43QB"), 50, Moment(15, 10, 21, 11, 0))) == ""
    ensures SuggestionsAsWritten(Vendors, TestQuery(AreaOfPostcode("NW43QB"), 50, Moment(15, 10, 21, 11, 0))) == ""
  {
    SourceReading(TestQuery(AreaOfPostcode("NW43QB"), 50, Moment(15, 10, 21, 11, 0)));
    Areas();
    NorthWest(TestQuery("NW", 50, Moment(15, 10, 21, 11, 0)));
  }

  // ------------------------------------------------------- constructor cases

  const TestDir: string := "src"
  const TestFiles: set<string> := {VendorFilePath(TestDir, "vendors.txt")}

  /** The valid input of the tests. */
  const ValidInput: seq<Arg> := [Text("vendors.txt"), Text("24/10/15"), Text("11:00"), Text("NW43QB"), Number(20)]

  /** The fields of the valid input each pass their check. */
  lemma AcceptedFields()
    ensures VendorFilePath(TestDir, "vendors.txt") in TestFiles
    ensures DateShape("24/10/15") && DateShape("21/10/15") && TimeShape("11:00")
    ensures WholeMatch(PostcodeShape, "NW43QB") && AreaOfPostcode("NW43QB") == "NW"
    ensures MomentOf("24/10/15", "11:00") == Moment(15, 10, 24, 11, 0)
    ensures MomentOf("21/10/15", "11:00") == Moment(15, 10, 21, 11, 0)
  {
    assert "NW43QB"[1..3] == "W4";
    assert "11:00"[..2] == "11";
    HourText("11");
  }

  /** `testValidInput`: the valid input is accepted, for the order it describes. */
  lemma ValidInputAccepted()
    ensures Validate(ValidInput, TestDir, TestFiles)
         == Success(Order(VendorFilePath(TestDir, "vendors.txt"), Moment(15, 10, 24, 11, 0), "NW43QB", 20))
  {
    RightNrOfArgumentsIsFive();
    AcceptedFields();
  }

  /** The order of 'Enough notice for some items': 21 October 2015 at 11:00, one cover. */
  lemma SomeNoticeOrder(input: seq<Arg>)
    requires input == ValidInput[1 := Text("21/10/15")][4 := Number(1)]
    ensures Validate(input, TestDir, TestFiles)
         == Success(Order(VendorFilePath(TestDir, "vendors.txt"), Moment(15, 10, 21, 11, 0), "NW43QB", 1))
  {
    RightNrOfArgumentsIsFive();
    AcceptedFields();
  }

  /** A number is never a date: no integer's text has the shape `dd/mm/yy`. */
  lemma NumberIsNoDate(n: int)
    ensures !WholeMatch(DateShape, IntText(n))
  {
    var s := IntText(n);
    if n >= 0 {
      assert s == Decimal(n);
      assert |s| == 8 ==> IsDigit(s[2]);
      assert |s| == 9 ==> IsDigit(s[|s| - 1]);
    } else {
      assert s[0] == '-';
    }
  }

  /** `testToFewArguments`: one input instead of five. */
  lemma TooFewArguments()
    ensures Validate([Text("vendors.txt")], TestDir, TestFiles) == Failure(WrongArgumentCount(RightInputFormat))
  {
    RightNrOfArgumentsIsFive();
    AcceptedFields();
  }

  /** `testToManyArguments`: six inputs instead of five. */
  lemma TooManyArguments()
    ensures Validate(ValidInput + [Text("foo")], TestDir, TestFiles) == Failure(WrongArgumentCount(RightInputFormat))
  {
    RightNrOfArgumentsIsFive();
    AcceptedFields();
  }

  /** `testInvalidFilename`: the catalogue file does not exist. */
  lemma MissingFile()
    ensures Validate(ValidInput[0 := Text("this file does not exist")], TestDir, TestFiles) == Failure(FileNotFound("this file does not exist"))
  {
    RightNrOfArgumentsIsFive();
    AcceptedFields();
  }

  /** `testInvalidDate` 'yyyy-mm-yy'. */
  lemma FullYearFirstDate()
    ensures Validate(ValidInput[1 := Text("2038-02-28")], TestDir, TestFiles) == Failure(InvalidDate)
  {
    RightNrOfArgumentsIsFive();
    AcceptedFields();
  }

  /** `testInvalidDate` 'yy-mm-dd'. */
  lemma YearFirstDate()
    ensures Validate(ValidInput[1 := Text("38-02-28")], TestDir, TestFiles) == Failure(InvalidDate)
  {
    RightNrOfArgumentsIsFive();
    AcceptedFields();
  }

  /** `testInvalidDate` 'dd-mm-yy'. */
  lemma DashedDate()
    ensures Validate(ValidInput[1 := Text("28-02-38")], TestDir, TestFiles) == Failure(InvalidDate)
  {
    RightNrOfArgumentsIsFive();
    AcceptedFields();
  }

  /** `testInvalidDate` 'dd/mm/yyyy'. */
  lemma FourDigitYearDate()
    ensures Validate(ValidInput[1 := Text("28/02/2038")], TestDir, TestFiles) == Failure(InvalidDate)
  {
    RightNrOfArgumentsIsFive();
    AcceptedFields();
  }

  /** `testInvalidDate` 'timestamp': an integer in place of the date. */
  lemma TimestampDate()
    ensures Validate(ValidInput[1 := Number(1524955537)], TestDir, TestFiles) == Failure(InvalidDate)
  {
    RightNrOfArgumentsIsFive();
    AcceptedFields();
    NumberIsNoDate(1524955537);
  }

  /** `testInvalidDate` 'string'. */
  lemma WordDate()
    ensures Validate(ValidInput[1 := Text("foo")], TestDir, TestFiles) == Failure(InvalidDate)
  {
    RightNrOfArgumentsIsFive();
    AcceptedFields();
  }

  /** `testInvalidTime` 'hh:mm:ss'. */
  lemma TimeWithSeconds()
    ensures Validate(ValidInput[2 := Text("10:30:50")], TestDir, TestFiles) == Failure(InvalidTime)
  {
    RightNrOfArgumentsIsFive();
    AcceptedFields();
  }

  lemma HourPastDayIsNoTime()
    ensures !WholeMatch(TimeShape, "24:00")
  {
    assert "24:00"[..2] == "24";
    HourText("24");
  }

  lemma LowerCaseIsNoPostcode()
    ensures !WholeMatch(PostcodeShape, "nw43qb")
  {
    assert !AreaLetter('n');
  }

  /** `testInvalidTime` '24h+'. */
  lemma HourPastDay()
    ensures Validate(ValidInput[2 := Text("24:00")], TestDir, TestFiles) == Failure(InvalidTime)
  {
    RightNrOfArgumentsIsFive();
    AcceptedFields();
    HourPastDayIsNoTime();
  }

  /** `testInvalidTime` '60m+'. */
  lemma MinutePastHour()
    ensures Validate(ValidInput[2 := Text("12:60")], TestDir, TestFiles) == Failure(InvalidTime)
  {
    RightNrOfArgumentsIsFive();
    AcceptedFields();
  }

  /** `testInvalidTime` 'string'. */
  lemma WordTime()
    ensures Validate(ValidInput[2 := Text("foo")], TestDir, TestFiles) == Failure(InvalidTime)
  {
    RightNrOfArgumentsIsFive();
    AcceptedFields();
  }

  /** `testInvalidPostcode` 'lowercase'. */
  lemma LowerCasePostcode()
    ensures Validate(ValidInput[3 := Text("nw43qb")], TestDir, TestFiles) == Failure(InvalidPostcode)
  {
    RightNrOfArgumentsIsFive();
    AcceptedFields();
    LowerCaseIsNoPostcode();
  }

  /** `testInvalidPostcode` 'contains spaces'. */
  lemma SpacedPostcode()
    ensures Validate(ValidInput[3 := Text("NW4 3QB")], TestDir, TestFiles) == Failure(InvalidPostcode)
  {
    RightNrOfArgumentsIsFive();
    AcceptedFields();
    if WholeMatch(PostcodeShape, "NW4 3QB") {
      assert "NW4 3QB"[3] == ' ';
      PostcodeSpace("NW4 3QB");
    }
  }

  /** `testInvalidCovers` 'negative'. */
  lemma NegativeCovers()
    ensures Validate(ValidInput[4 := Number(-1)], TestDir, TestFiles) == Failure(InvalidCovers)
  {
    RightNrOfArgumentsIsFive();
    AcceptedFields();
  }

  /** `testInvalidCovers` 'zero'. */
  lemma ZeroCovers()
    ensures Validate(ValidInput[4 := Number(0)], TestDir, TestFiles) == Failure(InvalidCovers)
  {
    RightNrOfArgumentsIsFive();
    AcceptedFields();
  }

  /** `testGetSuggestions` for 'Enough notice for some items', through the object. */
  method EnoughNoticeThroughInput() returns (suggestions: string)
    ensures suggestions == "Breakfast;gluten,eggs\n"
  {
    var input := ValidInput[1 := Text("21/10/15")][4 := Number(1)];
    var r := Input.Create(input, TestDir, TestFiles);
    SomeNoticeOrder(input);
    var data := r.value;
    assert data.postcode == "NW43QB" && data.covers == 1 && data.datetime == Moment(15, 10, 21, 11, 0);
    data.SetCurrentTime(Timestamp(Now));
    assert data.QueryAt(0) == TestQuery(AreaOfPostcode("NW43QB"), 1, Moment(15, 10, 21, 11, 0));
    suggestions := data.GetSuggestions(Vendors, 0);
    EnoughNoticeForSome();
  }
}

/** The booking modal's validation (`BookingSchema` and `validateWithZod` in
    components/shared/Summurycard3.jsx): the issues the schema raises, in the
    order the schema raises them, the field-to-message map where the first
    message for a field wins, and the payload handed on when nothing is wrong. */
module BookingValidation {
  import opened JsSemantics
  import opened BookingQuote

  datatype Field = PackageId | CheckIn | CheckOut | Adults | Children | AddOns

  /** One schema issue: the first element of its path and its message. */
  datatype Issue = Issue(field: Field, message: string)

  /** What `validateWithZod` hands to the schema. */
  datatype Payload = Payload(packageId: string, checkIn: string, checkOut: string,
                             adults: real, children: real, addOns: seq<string>)

  /** The validated booking, with the nights of the live quote. */
  datatype BookingData = BookingData(packageId: string, checkIn: string, checkOut: string,
                                     adults: real, children: real, addOns: seq<string>, nights: int)

  datatype Validation = Valid(data: BookingData) | Invalid(errors: map<Field, string>)

  /* ---------------------------- payload ----------------------------- */

  /** `String(pkg?.id ?? pkg?.slug ?? pkg?.title ?? "").trim()`. */
  function PackageIdOf(p: PackageRecord): string {
    Trim(if p.id.Some? then p.id.value
         else if p.slug.Some? then p.slug.value
         else if p.title.Some? then p.title.value
         else "")
  }

  function PayloadOf(p: PackageRecord, d: Draft): Payload {
    Payload(PackageIdOf(p), d.checkIn, d.checkOut, d.adults, d.children, ToAddOnsArray(d.extras.Entries()))
  }

  /* ---------------------------- schema issues ----------------------- */

  const ENUM_MESSAGE_HEAD: string := "Invalid enum value. Expected 'sunsetCruise' | 'spaCredit' | 'waterSports', received '"

  /** One issue per add-on that is not an add-on key, in list order. */
  function EnumIssues(addOns: seq<string>): seq<Issue> {
    if addOns == [] then []
    else (if addOns[0] in ADDON_KEYS then [] else [Issue(AddOns, ENUM_MESSAGE_HEAD + addOns[0] + "'")])
         + EnumIssues(addOns[1..])
  }

  /** The add-on list raises no issue exactly when every entry is a key. */
  lemma {:induction false} EnumIssuesEmpty(addOns: seq<string>)
    ensures EnumIssues(addOns) == [] <==> forall i :: 0 <= i < |addOns| ==> addOns[i] in ADDON_KEYS
  {
    if addOns != [] {
      EnumIssuesEmpty(addOns[1..]);
      assert forall i :: 1 <= i < |addOns| ==> addOns[i] == addOns[1..][i - 1];
    }
  }

  /** `z.string().min(1, message)`: the empty string raises `message`. */
  function RequiredString(f: Field, s: string, message: string): seq<Issue> {
    if |s| < 1 then [Issue(f, message)] else []
  }

  /** `z.coerce.number().int().min(least, message)`: the integer check and
      the bound each raise their own issue, the integer check first. */
  function WholeNumberAtLeast(f: Field, x: real, least: real, message: string): seq<Issue> {
    (if !IsInteger(x) then [Issue(f, "Expected integer, received float")] else []) +
    (if x < least then [Issue(f, message)] else [])
  }

  /** The object's own checks, in key order: package, dates, adults,
      children, add-ons. None of them stops the others. */
  function ShapeIssues(v: Payload): seq<Issue> {
    RequiredString(PackageId, v.packageId, "Missing package") +
    (RequiredString(CheckIn, v.checkIn, "Please select a check-in date") +
    (RequiredString(CheckOut, v.checkOut, "Please select a check-out date") +
    (WholeNumberAtLeast(Adults, v.adults, 1.0, "At least 1 adult") +
    (WholeNumberAtLeast(Children, v.children, 0.0, "Children cannot be negative") +
    EnumIssues(v.addOns)))))
  }

  /** The `superRefine` step on the dates; `parse` stands for
      `new Date(s).getTime()`, None for an invalid date. It runs even when a
      date is empty, and an empty date is then an invalid one. */
  function RefineIssues(v: Payload, parse: string -> Option<int>): seq<Issue> {
    var inDate := DateValue(parse, v.checkIn);
    var outDate := DateValue(parse, v.checkOut);
    (if inDate.None? then [Issue(CheckIn, "Invalid date")] else []) +
    ((if outDate.None? then [Issue(CheckOut, "Invalid date")] else []) +
    (if inDate.Some? && outDate.Some? && outDate.value <= inDate.value
     then [Issue(CheckOut, "Check-out must be after check-in")] else []))
  }

  /** `BookingSchema.safeParse(payload)` issues. An add-on outside the enum
      aborts the object, so the refinement then does not run. */
  function SchemaIssues(v: Payload, parse: string -> Option<int>): seq<Issue> {
    ShapeIssues(v) + (if EnumIssues(v.addOns) == [] then RefineIssues(v, parse) else [])
  }

  predicate MessagesNonEmpty(issues: seq<Issue>) {
    forall i :: 0 <= i < |issues| ==> issues[i].message != ""
  }

  lemma MessagesNonEmptyAppend(a: seq<Issue>, b: seq<Issue>)
    requires MessagesNonEmpty(a) && MessagesNonEmpty(b)
    ensures MessagesNonEmpty(a + b)
  {
    forall i | 0 <= i < |a + b| ensures (a + b)[i].message != "" {
      if i < |a| { assert (a + b)[i] == a[i]; } else { assert (a + b)[i] == b[i - |a|]; }
    }
  }

  lemma {:induction false} EnumMessagesNonEmpty(addOns: seq<string>)
    ensures MessagesNonEmpty(EnumIssues(addOns))
  {
    if addOns != [] {
      EnumMessagesNonEmpty(addOns[1..]);
      var head := if addOns[0] in ADDON_KEYS then [] else [Issue(AddOns, ENUM_MESSAGE_HEAD + addOns[0] + "'")];
      MessagesNonEmptyAppend(head, EnumIssues(addOns[1..]));
    }
  }

  lemma RequiredStringNonEmpty(f: Field, s: string, message: string)
    requires message != ""
    ensures MessagesNonEmpty(RequiredString(f, s, message))
  {
  }

  lemma WholeNumberNonEmpty(f: Field, x: real, least: real, message: string)
    requires message != ""
    ensures MessagesNonEmpty(WholeNumberAtLeast(f, x, least, message))
  {
    MessagesNonEmptyAppend(if !IsInteger(x) then [Issue(f, "Expected integer, received float")] else [],
                           if x < least then [Issue(f, message)] else []);
  }

  /** Every message of the object's own checks is non-empty. */
  lemma ShapeMessagesNonEmpty(v: Payload)
    ensures MessagesNonEmpty(ShapeIssues(v))
  {
    EnumMessagesNonEmpty(v.addOns);
    var adults := WholeNumberAtLeast(Adults, v.adults, 1.0, "At least 1 adult");
    var children := WholeNumberAtLeast(Children, v.children, 0.0, "Children cannot be negative");
    WholeNumberNonEmpty(Adults, v.adults, 1.0, "At least 1 adult");
    WholeNumberNonEmpty(Children, v.children, 0.0, "Children cannot be negative");
    MessagesNonEmptyAppend(children, EnumIssues(v.addOns));
    MessagesNonEmptyAppend(adults, children + EnumIssues(v.addOns));
    var tail := adults + (children + EnumIssues(v.addOns));
    var checkOut := RequiredString(CheckOut, v.checkOut, "Please select a check-out date");
    var checkIn := RequiredString(CheckIn, v.checkIn, "Please select a check-in date");
    var pkg := RequiredString(PackageId, v.packageId, "Missing package");
    RequiredStringNonEmpty(CheckOut, v.checkOut, "Please select a check-out date");
    RequiredStringNonEmpty(CheckIn, v.checkIn, "Please select a check-in date");
    RequiredStringNonEmpty(PackageId, v.packageId, "Missing package");
    MessagesNonEmptyAppend(checkOut, tail);
    MessagesNonEmptyAppend(checkIn, checkOut + tail);
    MessagesNonEmptyAppend(pkg, checkIn + (checkOut + tail));
  }

  /** Every message of the date refinement is non-empty. */
  lemma RefineMessagesNonEmpty(v: Payload, parse: string -> Option<int>)
    ensures MessagesNonEmpty(RefineIssues(v, parse))
  {
    var inDate := DateValue(parse, v.checkIn);
    var outDate := DateValue(parse, v.checkOut);
    var a := if inDate.None? then [Issue(CheckIn, "Invalid date")] else [];
    var b := if outDate.None? then [Issue(CheckOut, "Invalid date")] else [];
    var c := if inDate.Some? && outDate.Some? && outDate.value <= inDate.value
             then [Issue(CheckOut, "Check-out must be after check-in")] else [];
    MessagesNonEmptyAppend(b, c);
    MessagesNonEmptyAppend(a, b + c);
  }

  /** Every message the schema raises is non-empty. */
  lemma SchemaMessagesNonEmpty(v: Payload, parse: string -> Option<int>)
    ensures MessagesNonEmpty(SchemaIssues(v, parse))
  {
    ShapeMessagesNonEmpty(v);
    RefineMessagesNonEmpty(v, parse);
    MessagesNonEmptyAppend(ShapeIssues(v), if EnumIssues(v.addOns) == [] then RefineIssues(v, parse) else []);
  }

  /* ---------------------------- the error map ----------------------- */

  /** The first message raised for field `f`, reading the issues in order. */
  function FirstMessage(issues: seq<Issue>, f: Field): Option<string> {
    if issues == [] then None
    else if issues[0].field == f then Some(issues[0].message)
    else FirstMessage(issues[1..], f)
  }

  lemma {:induction false} FirstMessageAppend(a: seq<Issue>, b: seq<Issue>, f: Field)
    ensures FirstMessage(a + b, f) == if FirstMessage(a, f).Some? then FirstMessage(a, f) else FirstMessage(b, f)
  {
    if a != [] {
      assert (a + b)[1..] == a[1..] + b;
      FirstMessageAppend(a[1..], b, f);
    } else {
      assert a + b == b;
    }
  }

  lemma {:induction false} FirstMessageNonEmpty(issues: seq<Issue>, f: Field)
    requires MessagesNonEmpty(issues)
    ensures FirstMessage(issues, f).Some? ==> FirstMessage(issues, f).value != ""
  {
    if issues != [] {
      FirstMessageNonEmpty(issues[1..], f);
    }
  }

  /** The map the loop builds after reading `issues`: an issue sets its field
      unless the field already holds a non-empty message. */
  function ErrorMap(issues: seq<Issue>): map<Field, string> {
    if issues == [] then map[]
    else
      var m := ErrorMap(issues[..|issues| - 1]);
      var last := issues[|issues| - 1];
      if last.field !in m || m[last.field] == "" then m[last.field := last.message] else m
  }

  /** With non-empty messages the map holds, for each field, the first
      message raised for it and nothing for a field without an issue; later
      messages for the same field are dropped. */
  lemma {:induction false} ErrorMapIsFirstMessage(issues: seq<Issue>, f: Field)
    requires MessagesNonEmpty(issues)
    ensures f in ErrorMap(issues) <==> FirstMessage(issues, f).Some?
    ensures f in ErrorMap(issues) ==> ErrorMap(issues)[f] == FirstMessage(issues, f).value
  {
    if issues != [] {
      var init := issues[..|issues| - 1];
      var last := issues[|issues| - 1];
      ErrorMapIsFirstMessage(init, f);
      assert issues == init + [last];
      FirstMessageAppend(init, [last], f);
      FirstMessageNonEmpty(init, f);
    }
  }

  /** The first-wins property stated over positions: a field is in the map
      exactly when some issue names it, and then it holds the message of the
      earliest such issue. */
  lemma {:induction false} FirstMessageIsEarliest(issues: seq<Issue>, f: Field, k: int)
    requires 0 <= k < |issues| && issues[k].field == f
    requires forall j :: 0 <= j < k ==> issues[j].field != f
    ensures FirstMessage(issues, f) == Some(issues[k].message)
  {
    if k > 0 {
      FirstMessageIsEarliest(issues[1..], f, k - 1);
    }
  }

  lemma {:induction false} FirstMessageNoneIff(issues: seq<Issue>, f: Field)
    ensures FirstMessage(issues, f).None? <==> forall j :: 0 <= j < |issues| ==> issues[j].field != f
  {
    if issues != [] {
      FirstMessageNoneIff(issues[1..], f);
      assert forall j :: 1 <= j < |issues| ==> issues[j] == issues[1..][j - 1];
    }
  }

  /* ---------------------------- validation -------------------------- */

  /** `validateWithZod` as a value: the booking with the live-quote nights
      when the schema raises nothing, the first-wins error map otherwise. */
  function Validate(p: PackageRecord, d: Draft, parse: string -> Option<int>): Validation {
    var v := PayloadOf(p, d);
    var issues := SchemaIssues(v, parse);
    if issues == [] then
      Valid(BookingData(v.packageId, v.checkIn, v.checkOut, v.adults, v.children, v.addOns,
                        ModalNights(d.checkIn, d.checkOut, parse)))
    else Invalid(ErrorMap(issues))
  }

  /** The loop of `validateWithZod` that fills the error map: each issue
      sets its field unless the field already holds a non-empty message. */
  method FieldErrors(issues: seq<Issue>) returns (m: map<Field, string>)
    ensures m == ErrorMap(issues)
  {
    m := map[];
    for i := 0 to |issues|
      invariant m == ErrorMap(issues[..i])
    {
      assert issues[..i + 1][..i] == issues[..i];
      var key := issues[i].field;
      if key !in m || m[key] == "" {
        m := m[key := issues[i].message];
      }
    }
    assert issues[..|issues|] == issues;
  }

  /** `validateWithZod`: runs the schema; on success returns the booking with
      the live-quote nights, on failure the first-wins error map. */
  method ValidateWithZod(p: PackageRecord, d: Draft, parse: string -> Option<int>) returns (r: Validation)
    ensures r == Validate(p, d, parse)
  {
    var payload := PayloadOf(p, d);
    var issues := SchemaIssues(payload, parse);
    if issues == [] {
      var nights := ModalNights(d.checkIn, d.checkOut, parse);
      return Valid(BookingData(payload.packageId, payload.checkIn, payload.checkOut, payload.adults,
                               payload.children, payload.addOns, nights));
    }
    var errors := FieldErrors(issues);
    return Invalid(errors);
  }

  /** The add-on list the modal builds never fails the enum check. */
  lemma CardAddOnsAlwaysValid(x: Extras)
    ensures EnumIssues(ToAddOnsArray(x.Entries())) == []
  {
    var keys := ToAddOnsArray(x.Entries());
    forall i | 0 <= i < |keys| ensures keys[i] in ADDON_KEYS {
      ToAddOnsArrayMembers(x.Entries(), keys[i]);
    }
    EnumIssuesEmpty(keys);
  }

  /** The message a field should carry, read off the schema's rules for a
      payload whose add-ons are all keys: the empty-date message comes before
      "Invalid date", the date order is checked only when both dates parse,
      and the integer check comes before the bound on adults and children. */
  function ExpectedMessage(v: Payload, parse: string -> Option<int>, f: Field): Option<string> {
    match f
    case PackageId => if v.packageId == "" then Some("Missing package") else None
    case CheckIn =>
      if v.checkIn == "" then Some("Please select a check-in date")
      else if parse(v.checkIn).None? then Some("Invalid date")
      else None
    case CheckOut =>
      if v.checkOut == "" then Some("Please select a check-out date")
      else if parse(v.checkOut).None? then Some("Invalid date")
      else if v.checkIn != "" && parse(v.checkIn).Some? && parse(v.checkOut).value <= parse(v.checkIn).value
      then Some("Check-out must be after check-in")
      else None
    case Adults =>
      if !IsInteger(v.adults) then Some("Expected integer, received float")
      else if v.adults < 1.0 then Some("At least 1 adult")
      else None
    case Children =>
      if !IsInteger(v.children) then Some("Expected integer, received float")
      else if v.children < 0.0 then Some("Children cannot be negative")
      else None
    case AddOns => None
  }

  lemma RequiredStringFirst(g: Field, s: string, message: string, f: Field)
    ensures FirstMessage(RequiredString(g, s, message), f) == if g == f && s == "" then Some(message) else None
  {
  }

  lemma WholeNumberFirst(g: Field, x: real, least: real, message: string, f: Field)
    ensures FirstMessage(WholeNumberAtLeast(g, x, least, message), f) ==
              if g != f then None
              else if !IsInteger(x) then Some("Expected integer, received float")
              else if x < least then Some(message)
              else None
  {
    FirstMessageAppend(if !IsInteger(x) then [Issue(g, "Expected integer, received float")] else [],
                       if x < least then [Issue(g, message)] else [], f);
  }

  lemma ShapeFirst(v: Payload, parse: string -> Option<int>, f: Field)
    requires EnumIssues(v.addOns) == []
    ensures FirstMessage(ShapeIssues(v), f) ==
              if f == CheckOut then (if v.checkOut == "" then Some("Please select a check-out date") else None)
              else if f == CheckIn then (if v.checkIn == "" then Some("Please select a check-in date") else None)
              else ExpectedMessage(v, parse, f)
  {
    var p0 := RequiredString(PackageId, v.packageId, "Missing package");
    var p1 := RequiredString(CheckIn, v.checkIn, "Please select a check-in date");
    var p2 := RequiredString(CheckOut, v.checkOut, "Please select a check-out date");
    var p3 := WholeNumberAtLeast(Adults, v.adults, 1.0, "At least 1 adult");
    var p4 := WholeNumberAtLeast(Children, v.children, 0.0, "Children cannot be negative");
    assert ShapeIssues(v) == p0 + (p1 + (p2 + (p3 + (p4 + []))));
    assert p4 + [] == p4;
    RequiredStringFirst(PackageId, v.packageId, "Missing package", f);
    RequiredStringFirst(CheckIn, v.checkIn, "Please select a check-in date", f);
    RequiredStringFirst(CheckOut, v.checkOut, "Please select a check-out date", f);
    WholeNumberFirst(Adults, v.adults, 1.0, "At least 1 adult", f);
    WholeNumberFirst(Children, v.children, 0.0, "Children cannot be negative", f);
    FirstMessageAppend(p3, p4, f);
    FirstMessageAppend(p2, p3 + p4, f);
    FirstMessageAppend(p1, p2 + (p3 + p4), f);
    FirstMessageAppend(p0, p1 + (p2 + (p3 + p4)), f);
  }

  lemma RefineFirst(v: Payload, parse: string -> Option<int>, f: Field)
    ensures FirstMessage(RefineIssues(v, parse), f) ==
              if f == CheckIn then (if DateValue(parse, v.checkIn).None? then Some("Invalid date") else None)
              else if f == CheckOut then
                (if DateValue(parse, v.checkOut).None? then Some("Invalid date")
                 else if DateValue(parse, v.checkIn).Some? &&
                         DateValue(parse, v.checkOut).value <= DateValue(parse, v.checkIn).value
                 then Some("Check-out must be after check-in")
                 else None)
              else None
  {
    var inDate := DateValue(parse, v.checkIn);
    var outDate := DateValue(parse, v.checkOut);
    var r1: seq<Issue> := if inDate.None? then [Issue(CheckIn, "Invalid date")] else [];
    var r2: seq<Issue> := if outDate.None? then [Issue(CheckOut, "Invalid date")] else [];
    var r3: seq<Issue> := if inDate.Some? && outDate.Some? && outDate.value <= inDate.value
                          then [Issue(CheckOut, "Check-out must be after check-in")] else [];
    assert RefineIssues(v, parse) == r1 + (r2 + r3);
    FirstMessageAppend(r2, r3, f);
    FirstMessageAppend(r1, r2 + r3, f);
  }

  /** An empty check-in is an invalid date for the refinement, so it never
      makes check-out "out of order": the form asks for the date instead. */
  lemma EmptyCheckInNotOrdered(v: Payload, parse: string -> Option<int>)
    requires v.checkIn == ""
    ensures FirstMessage(RefineIssues(v, parse), CheckIn) == Some("Invalid date")
    ensures FirstMessage(RefineIssues(v, parse), CheckOut) != Some("Check-out must be after check-in")
    ensures ExpectedMessage(v, parse, CheckIn) == Some("Please select a check-in date")
    ensures ExpectedMessage(v, parse, CheckOut) != Some("Check-out must be after check-in")
  {
    RefineFirst(v, parse, CheckIn);
    RefineFirst(v, parse, CheckOut);
  }

  /** The schema's first message for each field is the expected one. */
  lemma SchemaFirstMessage(v: Payload, parse: string -> Option<int>, f: Field)
    requires EnumIssues(v.addOns) == []
    ensures FirstMessage(SchemaIssues(v, parse), f) == ExpectedMessage(v, parse, f)
  {
    ShapeFirst(v, parse, f);
    RefineFirst(v, parse, f);
    FirstMessageAppend(ShapeIssues(v), RefineIssues(v, parse), f);
  }

  /** Validation succeeds exactly when the package id is set, both dates are
      filled in, parse, and check-out is after check-in, adults is a whole
      number of at least 1 and children a whole number of at least 0. */
  lemma ValidIff(p: PackageRecord, d: Draft, parse: string -> Option<int>)
    ensures Validate(p, d, parse).Valid? <==>
              && PackageIdOf(p) != ""
              && d.checkIn != "" && d.checkOut != ""
              && parse(d.checkIn).Some? && parse(d.checkOut).Some?
              && parse(d.checkIn).value < parse(d.checkOut).value
              && IsInteger(d.adults) && d.adults >= 1.0
              && IsInteger(d.children) && d.children >= 0.0
  {
    var v := PayloadOf(p, d);
    CardAddOnsAlwaysValid(d.extras);
    var issues := SchemaIssues(v, parse);
    if issues != [] {
      var f := issues[0].field;
      FirstMessageIsEarliest(issues, f, 0);
      SchemaFirstMessage(v, parse, f);
    } else {
      forall f: Field ensures ExpectedMessage(v, parse, f) == None {
        FirstMessageNoneIff(issues, f);
        SchemaFirstMessage(v, parse, f);
      }
      assert ExpectedMessage(v, parse, PackageId) == None;
      assert ExpectedMessage(v, parse, CheckIn) == None;
      assert ExpectedMessage(v, parse, CheckOut) == None;
      assert ExpectedMessage(v, parse, Adults) == None;
      assert ExpectedMessage(v, parse, Children) == None;
    }
  }

  /** On failure each field of the map carries the first message the schema
      raised for it, and a field the schema did not complain about is absent. */
  lemma InvalidErrors(p: PackageRecord, d: Draft, parse: string -> Option<int>, f: Field)
    requires Validate(p, d, parse).Invalid?
    ensures var errors := Validate(p, d, parse).errors;
            && (f in errors <==> FirstMessage(SchemaIssues(PayloadOf(p, d), parse), f).Some?)
            && (f in errors ==> errors[f] == FirstMessage(SchemaIssues(PayloadOf(p, d), parse), f).value)
  {
    SchemaMessagesNonEmpty(PayloadOf(p, d), parse);
    ErrorMapIsFirstMessage(SchemaIssues(PayloadOf(p, d), parse), f);
  }

  /** The message each field of the form shows: when the rules give a
      field a message, validation fails and the error map holds exactly that
      message (so an empty date asks to select one rather than saying
      "Invalid date"); a field the rules have nothing against is absent. */
  lemma FieldMessage(p: PackageRecord, d: Draft, parse: string -> Option<int>, f: Field)
    ensures var expected := ExpectedMessage(PayloadOf(p, d), parse, f);
            && (expected.Some? ==> Validate(p, d, parse).Invalid? &&
                                   f in Validate(p, d, parse).errors &&
                                   Validate(p, d, parse).errors[f] == expected.value)
            && (expected.None? && Validate(p, d, parse).Invalid? ==> f !in Validate(p, d, parse).errors)
  {
    var v := PayloadOf(p, d);
    CardAddOnsAlwaysValid(d.extras);
    SchemaFirstMessage(v, parse, f);
    var issues := SchemaIssues(v, parse);
    if issues == [] {
      FirstMessageNoneIff(issues, f);
    } else {
      InvalidErrors(p, d, parse, f);
    }
  }

  /** A successful validation carries the nights of the live quote, which
      for valid dates is the day difference rounded up and at least 1. */
  lemma ValidCarriesQuoteNights(p: PackageRecord, d: Draft, parse: string -> Option<int>)
    requires Validate(p, d, parse).Valid?
    ensures var data := Validate(p, d, parse).data;
            && data.nights == ModalQuote(p, d, parse).nights
            && data.nights >= 1
            && data.addOns == ToAddOnsArray(d.extras.Entries())
            && (var days := (parse(d.checkOut).value - parse(d.checkIn).value) as real / DAY_MS as real;
                days <= data.nights as real < days + 1.0)
  {
    ValidIff(p, d, parse);
  }

  /** Dates that both parse but are not in order get the ordering message. */
  lemma OrderMessage(v: Payload, parse: string -> Option<int>)
    requires v.checkIn != "" && v.checkOut != ""
    requires parse(v.checkIn).Some? && parse(v.checkOut).Some?
    requires parse(v.checkOut).value <= parse(v.checkIn).value
    ensures ExpectedMessage(v, parse, CheckOut) == Some("Check-out must be after check-in")
  {
  }

  /** Dates that both parse but are not in order are refused on `checkOut`
      with the ordering message. */
  lemma OrderRejected(p: PackageRecord, d: Draft, parse: string -> Option<int>)
    requires d.checkIn != "" && d.checkOut != ""
    requires parse(d.checkIn).Some? && parse(d.checkOut).Some?
    requires parse(d.checkOut).value <= parse(d.checkIn).value
    ensures Validate(p, d, parse).Invalid? && CheckOut in Validate(p, d, parse).errors
    ensures Validate(p, d, parse).errors[CheckOut] == "Check-out must be after check-in"
  {
    OrderMessage(PayloadOf(p, d), parse);
    FieldMessage(p, d, parse, CheckOut);
  }

  /** Clamp versus reject: for the same pair of dates with check-out not
      after check-in, the quote shows one night while validation refuses the
      booking on `checkOut`. */
  lemma ClampVersusReject(p: PackageRecord, d: Draft, parse: string -> Option<int>)
    requires d.checkIn != "" && d.checkOut != ""
    requires parse(d.checkIn).Some? && parse(d.checkOut).Some?
    requires parse(d.checkOut).value <= parse(d.checkIn).value
    ensures ModalQuote(p, d, parse).nights == 1
    ensures Validate(p, d, parse).Invalid? && CheckOut in Validate(p, d, parse).errors
    ensures Validate(p, d, parse).errors[CheckOut] == "Check-out must be after check-in"
  {
    OrderRejected(p, d, parse);
  }
}

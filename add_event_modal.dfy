/** The form state of `src/components/AddEventModal.jsx`: the field values,
    the per-field error messages, and the change, validate, submit and close
    handlers. */
module AddEventModal {
  import opened Wrappers
  import opened JsString
  import opened ViewModel
  import Taxonomy
  import EventsApi

  /** The `name` attributes of the form's inputs. */
  datatype Field = Title | Category | Date | Time | Location | Description

  /** `formData`; `image` is `None` when it was set to `undefined`. */
  datatype FormData = FormData(
    title: string,
    category: string,
    date: string,
    time: string,
    location: string,
    description: string,
    image: Option<string>)

  const MusicIcon: string := "\U{1F3B5}"

  const InitialForm: FormData := FormData("", "music", "", "", "", "", Some(MusicIcon))

  /** `categoryIcons`. */
  const CategoryIcons: map<string, string> := map[
    "party" := "\U{1F389}",
    "music" := MusicIcon,
    "festival" := "\U{1F3AA}",
    "food" := "\U{1F35C}",
    "artsy" := "\U{1F3A8}",
    "comedy" := "\U{1F602}",
    "expo" := "\U{1F3DB}\U{FE0F}",
    "sports" := "\U{26BD}"
  ]

  /** `categoryIcons[category]`, `undefined` for an unknown category. */
  function IconFor(category: string): (icon: Option<string>)
    ensures icon.Some? <==> category in CategoryIcons
    ensures icon.Some? ==> icon.value == CategoryIcons[category]
  {
    if category in CategoryIcons then Some(CategoryIcons[category]) else None
  }

  function Get(f: FormData, k: Field): string {
    match k
    case Title => f.title
    case Category => f.category
    case Date => f.date
    case Time => f.time
    case Location => f.location
    case Description => f.description
  }

  /** `{ ...prev, [name]: value }`, plus the category's icon when the category
      changes: the named field takes the value and no other field changes. */
  function WithField(f: FormData, name: Field, value: string): (r: FormData)
    ensures Get(r, name) == value
    ensures forall k :: k != name ==> Get(r, k) == Get(f, k)
    ensures r.image == if name == Category then IconFor(value) else f.image
  {
    match name
    case Title => f.(title := value)
    case Category => f.(category := value, image := IconFor(value))
    case Date => f.(date := value)
    case Time => f.(time := value)
    case Location => f.(location := value)
    case Description => f.(description := value)
  }

  const TitleRequired: string := "Event title is required"
  const TitleTooLong: string := "Title must be less than 100 characters"
  const CategoryRequired: string := "Category is required"
  const DateRequired: string := "Date is required"
  const DateInPast: string := "Event date cannot be in the past"
  const TimeRequired: string := "Time is required"
  const LocationRequired: string := "Location is required"
  const LocationTooLong: string := "Location must be less than 100 characters"
  const DescriptionRequired: string := "Description is required"
  const DescriptionTooShort: string := "Description must be at least 10 characters"
  const DescriptionTooLong: string := "Description must be less than 500 characters"

  /** `new Date(string)`: the instant, or `None` for an invalid date. */
  type DateParser = string -> Option<Instant>

  // Each field's rule is an else-if chain, so a field gets at most one
  // message. Blank checks use the trimmed value, length checks the raw one.

  function TitleError(title: string): (m: Option<string>)
    ensures m.None? <==> !IsBlank(title) && |title| <= 100
    ensures IsBlank(title) ==> m == Some(TitleRequired)
    ensures !IsBlank(title) && |title| > 100 ==> m == Some(TitleTooLong)
  {
    if IsBlank(title) then Some(TitleRequired)
    else if |title| > 100 then Some(TitleTooLong)
    else None
  }

  function CategoryError(category: string): (m: Option<string>)
    ensures m.None? <==> category != ""
    ensures m.Some? ==> m == Some(CategoryRequired)
  {
    if category == "" then Some(CategoryRequired) else None
  }

  /** An invalid date compares as not before today and so passes. */
  function DateError(date: string, today: Instant, parse: DateParser): (m: Option<string>)
    ensures m.None? <==> date != "" && !(parse(date).Some? && parse(date).value < today)
    ensures date == "" ==> m == Some(DateRequired)
    ensures date != "" && m.Some? ==> m == Some(DateInPast)
  {
    if date == "" then Some(DateRequired)
    else if parse(date).Some? && parse(date).value < today then Some(DateInPast)
    else None
  }

  function TimeError(time: string): (m: Option<string>)
    ensures m.None? <==> time != ""
    ensures m.Some? ==> m == Some(TimeRequired)
  {
    if time == "" then Some(TimeRequired) else None
  }

  function LocationError(location: string): (m: Option<string>)
    ensures m.None? <==> !IsBlank(location) && |location| <= 100
    ensures IsBlank(location) ==> m == Some(LocationRequired)
    ensures !IsBlank(location) && |location| > 100 ==> m == Some(LocationTooLong)
  {
    if IsBlank(location) then Some(LocationRequired)
    else if |location| > 100 then Some(LocationTooLong)
    else None
  }

  function DescriptionError(description: string): (m: Option<string>)
    ensures m.None? <==> !IsBlank(description) && 10 <= |description| <= 500
    ensures IsBlank(description) ==> m == Some(DescriptionRequired)
    ensures !IsBlank(description) && |description| < 10 ==> m == Some(DescriptionTooShort)
    ensures !IsBlank(description) && |description| > 500 ==> m == Some(DescriptionTooLong)
  {
    if IsBlank(description) then Some(DescriptionRequired)
    else if |description| < 10 then Some(DescriptionTooShort)
    else if |description| > 500 then Some(DescriptionTooLong)
    else None
  }

  /** Records field `k`'s message, if it has one. */
  function Put(m: map<Field, string>, k: Field, message: Option<string>): map<Field, string> {
    if message.Some? then m[k := message.value] else m
  }

  /** The error map `validateForm` computes: one entry per failing field. */
  function FormErrors(f: FormData, today: Instant, parse: DateParser): map<Field, string> {
    var m := Put(map[], Title, TitleError(f.title));
    var m := Put(m, Category, CategoryError(f.category));
    var m := Put(m, Date, DateError(f.date, today, parse));
    var m := Put(m, Time, TimeError(f.time));
    var m := Put(m, Location, LocationError(f.location));
    Put(m, Description, DescriptionError(f.description))
  }

  /** The form is valid exactly when no field rule fails. */
  predicate AllRulesPass(f: FormData, today: Instant, parse: DateParser) {
    && TitleError(f.title).None? && CategoryError(f.category).None?
    && DateError(f.date, today, parse).None? && TimeError(f.time).None?
    && LocationError(f.location).None? && DescriptionError(f.description).None?
  }

  lemma ValidIffAllRulesPass(f: FormData, today: Instant, parse: DateParser)
    ensures FormErrors(f, today, parse) == map[] <==> AllRulesPass(f, today, parse)
  {
    var m := FormErrors(f, today, parse);
    if TitleError(f.title).Some? {
      assert Title in m;
    } else if CategoryError(f.category).Some? {
      assert Category in m;
    } else if DateError(f.date, today, parse).Some? {
      assert Date in m;
    } else if TimeError(f.time).Some? {
      assert Time in m;
    } else if LocationError(f.location).Some? {
      assert Location in m;
    } else if DescriptionError(f.description).Some? {
      assert Description in m;
    }
  }

  /** `newEvent` of `handleSubmit`. */
  function Submission(f: FormData): EventsApi.NewEvent {
    EventsApi.NewEvent(
      title := Trim(f.title),
      category := f.category,
      date := f.date + "T" + f.time + ":00",
      location := Trim(f.location),
      description := Trim(f.description),
      image := IconFor(f.category))
  }

  /** A valid form submits a non-empty trimmed title of at most 100
      characters, a non-empty trimmed location of at most 100 characters and a
      non-empty trimmed description of at most 500 characters (the lower bound
      of 10 applies to the untrimmed text only), the combined local date-time
      string, and an icon whenever the category is one the form offers. */
  lemma ValidSubmission(f: FormData, today: Instant, parse: DateParser)
    requires AllRulesPass(f, today, parse)
    ensures var e := Submission(f);
      && e.title != [] && |e.title| <= 100 && !IsSpace(e.title[0]) && !IsSpace(e.title[|e.title| - 1])
      && e.location != [] && |e.location| <= 100
      && e.description != [] && |e.description| <= 500
      && e.date == f.date + "T" + f.time + ":00" && f.date != "" && f.time != ""
      && (f.category in Taxonomy.SelectableCategoryIds(Taxonomy.Categories) ==> e.image.Some?)
  {
    var e := Submission(f);
    assert e.title != [] && |e.title| <= 100;
    assert !IsSpace(e.title[0]) && !IsSpace(e.title[|e.title| - 1]);
    assert e.location != [] && |e.location| <= 100;
    assert e.description != [] && |e.description| <= 500;
    EverySelectableCategoryHasIcon();
  }

  /** The length rule reads the untrimmed description while the submission is
      trimmed: a description padded to ten characters passes and is submitted
      with nine. */
  lemma PaddedDescriptionPassesShort()
    ensures var f := InitialForm.(description := "Jam night ");
      DescriptionError(f.description).None? && |Submission(f).description| == 9
  {
    var d := "Jam night ";
    assert !IsSpace(d[0]);
    assert TrimStart(d) == d;
    assert d[..|d| - 1] == "Jam night";
    assert TrimEnd("Jam night") == "Jam night";
  }

  /** The value of the "Add New City" option. */
  const NewCity: string := "__new__"

  /** The "Add New City" option's value `"__new__"` is a non-blank string,
      so choosing it without typing a name passes the location rule and is
      submitted as the location. */
  lemma NewCitySentinelPasses(f: FormData)
    requires f.location == NewCity
    ensures LocationError(f.location).None?
    ensures Submission(f).location == NewCity
  {
    var s := NewCity;
    assert !IsSpace(s[0]) && !IsSpace(s[|s| - 1]);
    assert TrimStart(s) == s;
    assert TrimEnd(s) == s;
  }

  /** The icon table and the category table agree on every category but "all". */
  lemma IconTablesAgree()
    ensures Taxonomy.Categories[0].id == Taxonomy.All
    ensures forall i :: 1 <= i < |Taxonomy.Categories| ==>
      Taxonomy.Categories[i].id in CategoryIcons && CategoryIcons[Taxonomy.Categories[i].id] == Taxonomy.Categories[i].icon
    ensures InitialForm.image == IconFor(InitialForm.category)
  {
  }

  /** Every category the form offers has an icon, so a category change never
      sets the image to `undefined`. */
  lemma EverySelectableCategoryHasIcon()
    ensures forall c :: c in Taxonomy.SelectableCategoryIds(Taxonomy.Categories) ==> c in CategoryIcons
  {
    var cs := Taxonomy.Categories;
    IconTablesAgree();
    forall c | c in Taxonomy.SelectableCategoryIds(cs) ensures c in CategoryIcons {
      var i :| 0 <= i < |cs| && cs[i].id == c;
    }
  }

  class Modal {
    var form: FormData
    var errors: map<Field, string>

    constructor ()
      ensures form == InitialForm && errors == map[]
    {
      form := InitialForm;
      errors := map[];
    }

    /** `handleChange`: sets the named field (and the icon for a category
        change) and blanks that field's error message if it has one; no other
        field or message changes. */
    method HandleChange(name: Field, value: string)
      modifies this
      ensures form == WithField(old(form), name, value)
      ensures name in old(errors) && old(errors)[name] != "" ==> errors == old(errors)[name := ""]
      ensures !(name in old(errors) && old(errors)[name] != "") ==> errors == old(errors)
      ensures forall k :: k != name ==> (k in errors <==> k in old(errors))
      ensures forall k :: k != name && k in errors ==> errors[k] == old(errors)[k]
      ensures name !in errors || errors[name] == ""
    {
      form := WithField(form, name, value);
      if name in errors && errors[name] != "" {
        errors := errors[name := ""];
      }
    }

    /** The free-text "new city" input, rendered only while the location is
        the "__new__" placeholder: sets only the location. */
    method EnterNewCity(value: string)
      requires form.location == NewCity
      modifies this
      ensures form == old(form).(location := value)
      ensures errors == old(errors)
    {
      form := form.(location := value);
    }

    /** `validateForm`: stores the computed error map and reports whether it
        is empty. */
    method ValidateForm(today: Instant, parse: DateParser) returns (valid: bool)
      modifies this
      ensures form == old(form)
      ensures errors == FormErrors(form, today, parse)
      ensures valid <==> errors == map[]
    {
      var f := form;
      var newErrors: map<Field, string> := map[];
      // `expected` is `FormErrors` built up field by field alongside the code
      ghost var expected: map<Field, string> := map[];

      if IsBlank(f.title) {
        newErrors := newErrors[Title := TitleRequired];
      } else if |f.title| > 100 {
        newErrors := newErrors[Title := TitleTooLong];
      }
      expected := Put(expected, Title, TitleError(f.title));
      assert newErrors == expected;

      if f.category == "" {
        newErrors := newErrors[Category := CategoryRequired];
      }
      expected := Put(expected, Category, CategoryError(f.category));
      assert newErrors == expected;

      if f.date == "" {
        newErrors := newErrors[Date := DateRequired];
      } else {
        var selectedDate := parse(f.date);
        if selectedDate.Some? && selectedDate.value < today {
          newErrors := newErrors[Date := DateInPast];
        }
      }
      expected := Put(expected, Date, DateError(f.date, today, parse));
      assert newErrors == expected;

      if f.time == "" {
        newErrors := newErrors[Time := TimeRequired];
      }
      expected := Put(expected, Time, TimeError(f.time));
      assert newErrors == expected;

      if IsBlank(f.location) {
        newErrors := newErrors[Location := LocationRequired];
      } else if |f.location| > 100 {
        newErrors := newErrors[Location := LocationTooLong];
      }
      expected := Put(expected, Location, LocationError(f.location));
      assert newErrors == expected;

      if IsBlank(f.description) {
        newErrors := newErrors[Description := DescriptionRequired];
      } else if |f.description| < 10 {
        newErrors := newErrors[Description := DescriptionTooShort];
      } else if |f.description| > 500 {
        newErrors := newErrors[Description := DescriptionTooLong];
      }
      expected := Put(expected, Description, DescriptionError(f.description));
      assert newErrors == expected;

      assert expected == FormErrors(f, today, parse);
      errors := newErrors;
      valid := newErrors == map[];
    }

    /** `handleClose`: back to the initial form with no errors. */
    method HandleClose()
      modifies this
      ensures form == InitialForm && errors == map[]
    {
      form := InitialForm;
      errors := map[];
    }

    /** `handleSubmit`: an invalid form keeps its values and shows its errors;
        a valid one hands its submission to `onAddEvent` and is reset. */
    method HandleSubmit(today: Instant, parse: DateParser) returns (submitted: Option<EventsApi.NewEvent>)
      modifies this
      ensures submitted.Some? <==> FormErrors(old(form), today, parse) == map[]
      ensures submitted.Some? ==> submitted.value == Submission(old(form)) && form == InitialForm && errors == map[]
      ensures submitted.None? ==> form == old(form) && errors == FormErrors(old(form), today, parse)
    {
      var valid := ValidateForm(today, parse);
      if !valid {
        submitted := None;
        return;
      }
      var newEvent := Submission(form);
      submitted := Some(newEvent);
      HandleClose();
    }
  }
}

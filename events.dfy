/** EventService: creating and updating events from JSON requests and from
    multipart forms (with an optional uploaded image), and the field rules of both paths. */
module Events {
  import opened Common
  import opened S3Url

  // ---------------------------------------------------------------------------
  // Calendar dates: LocalDate and LocalDate.parse in its ISO form yyyy-MM-dd

  datatype Date = Date(year: nat, month: nat, day: nat)

  predicate IsLeapYear(y: nat)
  {
    y % 4 == 0 && (y % 100 != 0 || y % 400 == 0)
  }

  function DaysInMonth(y: nat, m: nat): nat
  {
    if m == 2 then (if IsLeapYear(y) then 29 else 28)
    else if m == 4 || m == 6 || m == 9 || m == 11 then 30
    else 31
  }

  /** A date LocalDate can hold with a four-digit year. */
  predicate IsValidDate(d: Date)
  {
    d.year <= 9999 && 1 <= d.month <= 12 && 1 <= d.day <= DaysInMonth(d.year, d.month)
  }

  predicate IsDigit(c: char)
  {
    '0' <= c <= '9'
  }

  predicate AllDigits(s: string)
  {
    forall k :: 0 <= k < |s| ==> IsDigit(s[k])
  }

  function DecimalValue(s: string): nat
    requires AllDigits(s)
  {
    if s == [] then 0 else 10 * DecimalValue(s[..|s| - 1]) + (s[|s| - 1] - '0') as nat
  }

  function Pow10(w: nat): (p: nat)
    ensures p >= 1
  {
    if w == 0 then 1 else 10 * Pow10(w - 1)
  }

  /** `n` written with exactly `width` digits, zero-padded on the left. */
  function PadDigits(n: nat, width: nat): (r: string)
    requires n < Pow10(width)
    ensures |r| == width && AllDigits(r)
  {
    if width == 0 then []
    else PadDigits(n / 10, width - 1) + ['0' + (n % 10) as char]
  }

  /** Reading back a zero-padded number gives the number. */
  lemma {:induction false} DecimalValueOfPadDigits(n: nat, width: nat)
    requires n < Pow10(width)
    ensures DecimalValue(PadDigits(n, width)) == n
  {
    if width > 0 {
      var r := PadDigits(n, width);
      assert r[..|r| - 1] == PadDigits(n / 10, width - 1);
      DecimalValueOfPadDigits(n / 10, width - 1);
    }
  }

  /** LocalDate.parse: exactly yyyy-MM-dd, with a month and a day that exist. */
  function ParseLocalDate(s: string): (r: Option<Date>)
    ensures r.Some? ==> IsValidDate(r.value)
    ensures r.Some? ==> |s| == 10 && s[4] == '-' && s[7] == '-'
  {
    if |s| == 10 && s[4] == '-' && s[7] == '-'
       && AllDigits(s[..4]) && AllDigits(s[5..7]) && AllDigits(s[8..])
    then
      var d := Date(DecimalValue(s[..4]), DecimalValue(s[5..7]), DecimalValue(s[8..]));
      assert d.year < 10000 by { DecimalValueBound(s[..4]); }
      if 1 <= d.month <= 12 && 1 <= d.day <= DaysInMonth(d.year, d.month) then Some(d) else None
    else None
  }

  lemma {:induction false} DecimalValueBound(s: string)
    requires AllDigits(s)
    ensures DecimalValue(s) < Pow10(|s|)
  {
    if s != [] {
      DecimalValueBound(s[..|s| - 1]);
    }
  }

  /** LocalDate.toString for a four-digit year. */
  function FormatDate(d: Date): (r: string)
    requires IsValidDate(d)
    ensures |r| == 10
  {
    PadDigits(d.year, 4) + "-" + PadDigits(d.month, 2) + "-" + PadDigits(d.day, 2)
  }

  /** Writing back the value of a digit string with as many digits gives the string. */
  lemma {:induction false} PadDigitsOfDecimalValue(s: string)
    requires AllDigits(s)
    ensures DecimalValue(s) < Pow10(|s|) && PadDigits(DecimalValue(s), |s|) == s
  {
    DecimalValueBound(s);
    if s != [] {
      var p := s[..|s| - 1];
      PadDigitsOfDecimalValue(p);
      assert s == p + [s[|s| - 1]];
    }
  }

  /** Only the canonical text of a date parses: formatting a parsed date gives the text back. */
  lemma FormattedParsedDate(s: string)
    requires ParseLocalDate(s).Some?
    ensures FormatDate(ParseLocalDate(s).value) == s
  {
    PadDigitsOfDecimalValue(s[..4]);
    PadDigitsOfDecimalValue(s[5..7]);
    PadDigitsOfDecimalValue(s[8..]);
    assert s == s[..4] + "-" + s[5..7] + "-" + s[8..];
  }

  /** Every valid date survives formatting and parsing. */
  lemma ParseFormattedDate(d: Date)
    requires IsValidDate(d)
    ensures ParseLocalDate(FormatDate(d)) == Some(d)
  {
    var s := FormatDate(d);
    assert s[..4] == PadDigits(d.year, 4);
    assert s[5..7] == PadDigits(d.month, 2);
    assert s[8..] == PadDigits(d.day, 2);
    DecimalValueOfPadDigits(d.year, 4);
    DecimalValueOfPadDigits(d.month, 2);
    DecimalValueOfPadDigits(d.day, 2);
  }

  /** Only dates that exist are accepted: there is no 29 February in a common year. */
  lemma NoLeapDayInCommonYear(s: string)
    requires ParseLocalDate(s).Some? && ParseLocalDate(s).value.month == 2
    requires !IsLeapYear(ParseLocalDate(s).value.year)
    ensures ParseLocalDate(s).value.day <= 28
  {
  }

  // ---------------------------------------------------------------------------
  // Entities, requests, responses

  /** A stored Event row; `image` is an object key. */
  datatype EventData = EventData(
    id: Uuid, title: Option<string>, text: Option<string>, image: Option<string>, link: Option<string>,
    date: Option<Date>, createdAt: Option<Timestamp>, updatedAt: Option<Timestamp>)

  /** EventRequest (its id is not used by the service). */
  datatype EventRequest = EventRequest(
    title: Option<string>, text: Option<string>, image: Option<string>, link: Option<string>, date: Option<Date>)

  /** EventResponse: the image as a public URL. */
  datatype EventResponse = EventResponse(
    id: Uuid, title: Option<string>, text: Option<string>, imageUrl: Option<string>, link: Option<string>,
    date: Option<Date>, createdAt: Option<Timestamp>, updatedAt: Option<Timestamp>)

  /** A multipart file part; MultipartFile.isEmpty is `size == 0`. */
  datatype UploadedFile = UploadedFile(name: string, size: nat)

  /** What the photo store does with an upload: store it under a key, or fail with an IOException. */
  datatype UploadOutcome = Stored(objectKey: string) | Failed

  datatype EventError = IllegalArgument(message: string) | EntityNotFound | UploadError(message: string)

  const TitleRequired := "Event title is required"
  const TextRequired := "Event text is required"
  const UploadFailedMessage := "Failed to upload image"

  const BlankEvent := EventData(NilUuid, None, None, None, None, None, None, None)

  /** mapResponse */
  function ToResponse(e: EventData, s3: S3Settings): (r: EventResponse)
    ensures r.imageUrl == PublicUrl(s3, e.image)
    ensures r.id == e.id && r.title == e.title && r.text == e.text && r.link == e.link && r.date == e.date
    ensures r.createdAt == e.createdAt && r.updatedAt == e.updatedAt
  {
    EventResponse(e.id, e.title, e.text, PublicUrl(s3, e.image), e.link, e.date, e.createdAt, e.updatedAt)
  }

  /** validateEventFields, and the same two checks at the head of createEvent. */
  function ValidateEventFields(title: Option<string>, text: Option<string>): (r: Option<EventError>)
    ensures r.None? <==> !IsNullOrBlank(title) && !IsNullOrBlank(text)
    ensures IsNullOrBlank(title) ==> r == Some(IllegalArgument(TitleRequired))
    ensures !IsNullOrBlank(title) && IsNullOrBlank(text) ==> r == Some(IllegalArgument(TextRequired))
  {
    if IsNullOrBlank(title) then Some(IllegalArgument(TitleRequired))
    else if IsNullOrBlank(text) then Some(IllegalArgument(TextRequired))
    else None
  }

  /** updateRecord's effect: every non-null request field overwrites, every other field stays. */
  function MergeRequest(e: EventData, request: EventRequest): EventData
  {
    e.(title := if request.title.Some? then request.title else e.title,
       text := if request.text.Some? then request.text else e.text,
       image := if request.image.Some? then request.image else e.image,
       link := if request.link.Some? then request.link else e.link,
       date := if request.date.Some? then request.date else e.date)
  }

  /** A merge keeps the identity and timestamps, cannot clear a field, and is idempotent. */
  lemma MergeRequestProperties(e: EventData, request: EventRequest)
    ensures var m := MergeRequest(e, request);
      && m.id == e.id && m.createdAt == e.createdAt && m.updatedAt == e.updatedAt
      && (e.title.Some? ==> m.title.Some?) && (e.text.Some? ==> m.text.Some?)
      && (e.image.Some? ==> m.image.Some?) && (e.link.Some? ==> m.link.Some?)
      && (e.date.Some? ==> m.date.Some?)
      && MergeRequest(m, request) == m
  {
  }

  /** A created event validated by createEvent keeps a non-blank title and text. */
  lemma CreatedEventHasTitleAndText(request: EventRequest)
    requires ValidateEventFields(request.title, request.text).None?
    ensures !IsNullOrBlank(MergeRequest(BlankEvent, request).title)
    ensures !IsNullOrBlank(MergeRequest(BlankEvent, request).text)
  {
  }

  /** The date rule of the multipart path: blank clears, a parseable date is stored,
      anything else keeps the date the event had. */
  function MultipartDate(current: Option<Date>, date: Option<string>): (r: Option<Date>)
    ensures IsNullOrBlank(date) ==> r.None?
    ensures !IsNullOrBlank(date) && ParseLocalDate(date.value).Some? ==> r == ParseLocalDate(date.value)
    ensures !IsNullOrBlank(date) && ParseLocalDate(date.value).None? ==> r == current
  {
    if IsNullOrBlank(date) then None
    else match ParseLocalDate(date.value)
      case Some(d) => Some(d)
      case None => current
  }

  /** The link rule of the multipart path: blank becomes null, anything else is kept as given. */
  function MultipartLink(link: Option<string>): (r: Option<string>)
    ensures r.None? <==> IsNullOrBlank(link)
    ensures r.Some? ==> r == link
  {
    if IsNullOrBlank(link) then None else link
  }

  predicate HasContent(file: Option<UploadedFile>)
  {
    file.Some? && file.value.size > 0
  }

  /** The key the image is set to, when an upload takes place and succeeds. */
  function NewImageKey(file: Option<UploadedFile>, upload: UploadOutcome): (k: Option<string>)
    ensures k.Some? <==> HasContent(file) && upload.Stored?
  {
    if HasContent(file) && upload.Stored? then Some(upload.objectKey) else None
  }

  /** setEventFieldsFromMultipart's effect when it completes. */
  function MultipartFields(e: EventData, title: Option<string>, text: Option<string>, link: Option<string>,
                           date: Option<string>, newImage: Option<string>): EventData
  {
    e.(title := title, text := text,
       image := if newImage.Some? then newImage else e.image,
       link := MultipartLink(link),
       date := MultipartDate(e.date, date))
  }

  /** Title and text always come from the form; the image changes only to a freshly
      uploaded key; identity and timestamps are left alone. */
  lemma MultipartFieldsProperties(e: EventData, title: Option<string>, text: Option<string>,
                                  link: Option<string>, date: Option<string>,
                                  file: Option<UploadedFile>, upload: UploadOutcome)
    ensures var m := MultipartFields(e, title, text, link, date, NewImageKey(file, upload));
      && m.title == title && m.text == text
      && (!HasContent(file) ==> m.image == e.image)
      && (HasContent(file) && upload.Stored? ==> m.image == Some(upload.objectKey))
      && m.id == e.id && m.createdAt == e.createdAt && m.updatedAt == e.updatedAt
  {
  }

  // ---------------------------------------------------------------------------
  // The entity object and the service

  /** The Event entity object the service fills through its setters. */
  class Event {
    var id: Uuid
    var title: Option<string>
    var text: Option<string>
    var image: Option<string>
    var link: Option<string>
    var date: Option<Date>
    var createdAt: Option<Timestamp>
    var updatedAt: Option<Timestamp>

    function Data(): EventData
      reads this
    {
      EventData(id, title, text, image, link, date, createdAt, updatedAt)
    }

    /** `new Event()`: every field null. */
    constructor ()
      ensures Data() == BlankEvent
    {
      id, title, text, image, link, date, createdAt, updatedAt := NilUuid, None, None, None, None, None, None, None;
    }

    /** The managed entity getReferenceById hands out for a stored row. */
    constructor Load(d: EventData)
      ensures Data() == d
    {
      id, title, text, image, link, date, createdAt, updatedAt :=
        d.id, d.title, d.text, d.image, d.link, d.date, d.createdAt, d.updatedAt;
    }
  }

  /** updateRecord */
  method UpdateRecord(event: Event, request: EventRequest)
    modifies event
    ensures event.Data() == MergeRequest(old(event.Data()), request)
  {
    if request.title.Some? { event.title := request.title; }
    if request.text.Some? { event.text := request.text; }
    if request.image.Some? { event.image := request.image; }
    if request.link.Some? { event.link := request.link; }
    if request.date.Some? { event.date := request.date; }
  }

  /** The link and date rules at the end of setEventFieldsFromMultipart; a date that
      does not parse is dropped silently. */
  method SetLinkAndDate(event: Event, link: Option<string>, date: Option<string>)
    modifies event
    ensures event.Data() == old(event.Data()).(link := MultipartLink(link), date := MultipartDate(old(event.date), date))
  {
    if link.Some? && !IsBlank(link.value) {
      event.link := link;
    } else {
      event.link := None;
    }
    if date.Some? && !IsBlank(date.value) {
      var parsed := ParseLocalDate(date.value);
      if parsed.Some? {
        event.date := parsed;
      }
    } else {
      event.date := None;
    }
  }

  class EventService {
    const s3: S3Settings
    var events: map<Uuid, EventData>
    var nextId: Uuid
    /** The files handed to the photo store, in order. */
    var uploads: seq<UploadedFile>

    ghost predicate Valid()
      reads this
    {
      nextId > 0 && forall id :: id in events ==> 0 < id < nextId && events[id].id == id
    }

    constructor (s3: S3Settings)
      ensures Valid() && this.s3 == s3 && events == map[] && uploads == []
    {
      this.s3 := s3;
      events, nextId, uploads := map[], 1, [];
    }

    /** eventRepository.save: a new event gets an id and its creation time, a loaded one is written back. */
    method Save(event: Event, now: Timestamp) returns (saved: EventData)
      requires Valid()
      requires event.id == NilUuid || event.id in events
      modifies this`events, this`nextId, event
      ensures Valid()
      ensures old(event.id) == NilUuid ==>
        && saved == old(event.Data()).(id := old(nextId), createdAt := Some(now))
        && old(nextId) !in old(events) && nextId == old(nextId) + 1
      ensures old(event.id) != NilUuid ==> saved == old(event.Data()) && nextId == old(nextId)
      ensures events == old(events)[saved.id := saved]
    {
      if event.id == NilUuid {
        event.id := nextId;
        event.createdAt := Some(now);
        nextId := nextId + 1;
      }
      saved := event.Data();
      events := events[saved.id := saved];
    }

    /** setEventFieldsFromMultipart: an upload failure aborts it with an error. */
    method SetEventFieldsFromMultipart(event: Event, file: Option<UploadedFile>, title: Option<string>,
                                       text: Option<string>, link: Option<string>, date: Option<string>,
                                       upload: UploadOutcome)
      returns (err: Option<EventError>)
      modifies this`uploads, event
      ensures uploads == old(uploads) + (if HasContent(file) then [file.value] else [])
      ensures err.Some? <==> HasContent(file) && upload.Failed?
      ensures err.Some? ==> err == Some(UploadError(UploadFailedMessage))
      ensures err.None? ==>
        event.Data() == MultipartFields(old(event.Data()), title, text, link, date, NewImageKey(file, upload))
    {
      event.title := title;
      event.text := text;
      if file.Some? && file.value.size > 0 {
        uploads := uploads + [file.value];
        match upload {
          case Stored(key) => event.image := Some(key);
          case Failed => return Some(UploadError(UploadFailedMessage));
        }
      }
      SetLinkAndDate(event, link, date);
      err := None;
    }

    /** createEvent */
    method CreateEvent(request: EventRequest, now: Timestamp) returns (r: Result<EventResponse, EventError>)
      requires Valid()
      modifies this
      ensures Valid() && uploads == old(uploads)
      ensures ValidateEventFields(request.title, request.text).Some? ==>
        r == Err(ValidateEventFields(request.title, request.text).value) && events == old(events)
      ensures ValidateEventFields(request.title, request.text).None? ==>
        var stored := MergeRequest(BlankEvent, request).(id := old(nextId), createdAt := Some(now));
        && old(nextId) !in old(events)
        && events == old(events)[old(nextId) := stored]
        && r == Ok(ToResponse(stored, s3))
    {
      var invalid := ValidateEventFields(request.title, request.text);
      if invalid.Some? {
        return Err(invalid.value);
      }
      var event := new Event();
      UpdateRecord(event, request);
      var saved := Save(event, now);
      r := Ok(ToResponse(saved, s3));
    }

    /** createEventWithFile */
    method CreateEventWithFile(file: Option<UploadedFile>, title: Option<string>, text: Option<string>,
                               link: Option<string>, date: Option<string>, upload: UploadOutcome, now: Timestamp)
      returns (r: Result<EventResponse, EventError>)
      requires Valid()
      modifies this
      ensures Valid()
      ensures ValidateEventFields(title, text).Some? ==>
        r == Err(ValidateEventFields(title, text).value) && events == old(events) && uploads == old(uploads)
      ensures ValidateEventFields(title, text).None? ==>
        uploads == old(uploads) + (if HasContent(file) then [file.value] else [])
      ensures ValidateEventFields(title, text).None? && HasContent(file) && upload.Failed? ==>
        r == Err(UploadError(UploadFailedMessage)) && events == old(events)
      ensures ValidateEventFields(title, text).None? && !(HasContent(file) && upload.Failed?) ==>
        var stored := MultipartFields(BlankEvent, title, text, link, date, NewImageKey(file, upload))
                        .(id := old(nextId), createdAt := Some(now));
        && old(nextId) !in old(events)
        && events == old(events)[old(nextId) := stored]
        && r == Ok(ToResponse(stored, s3))
    {
      var invalid := ValidateEventFields(title, text);
      if invalid.Some? {
        return Err(invalid.value);
      }
      var event := new Event();
      var err := SetEventFieldsFromMultipart(event, file, title, text, link, date, upload);
      if err.Some? {
        return Err(err.value);
      }
      var saved := Save(event, now);
      r := Ok(ToResponse(saved, s3));
    }

    /** getEvent: the reference to an unknown id fails when it is mapped. */
    method GetEvent(id: Uuid) returns (r: Result<EventResponse, EventError>)
      requires Valid()
      ensures r.Err? <==> id !in events
      ensures r.Err? ==> r.error == EntityNotFound
      ensures r.Ok? ==> r.value == ToResponse(events[id], s3) && r.value.id == id
    {
      if id !in events {
        return Err(EntityNotFound);
      }
      r := Ok(ToResponse(events[id], s3));
    }

    /** deleteEvent: deleting an unknown id does nothing. */
    method DeleteEvent(id: Uuid)
      requires Valid()
      modifies this`events
      ensures Valid() && events == old(events) - {id}
    {
      events := events - {id};
    }

    /** updateEvent: an unknown id fails when the reference is first used. */
    method UpdateEvent(id: Uuid, request: EventRequest, now: Timestamp) returns (r: Result<EventResponse, EventError>)
      requires Valid()
      modifies this
      ensures Valid() && uploads == old(uploads) && nextId == old(nextId)
      ensures id !in old(events) ==> r == Err(EntityNotFound) && events == old(events)
      ensures id in old(events) ==>
        var stored := MergeRequest(old(events)[id], request).(updatedAt := Some(now));
        && events == old(events)[id := stored]
        && r == Ok(ToResponse(stored, s3))
    {
      if id !in events {
        return Err(EntityNotFound);
      }
      var event := new Event.Load(events[id]);
      UpdateRecord(event, request);
      event.updatedAt := Some(now);
      var saved := Save(event, now);
      r := Ok(ToResponse(saved, s3));
    }

    /** updateEventWithFile: the form is validated before the repository is consulted. */
    method UpdateEventWithFile(id: Uuid, file: Option<UploadedFile>, title: Option<string>, text: Option<string>,
                               link: Option<string>, date: Option<string>, upload: UploadOutcome, now: Timestamp)
      returns (r: Result<EventResponse, EventError>)
      requires Valid()
      modifies this
      ensures Valid() && nextId == old(nextId)
      ensures ValidateEventFields(title, text).Some? ==>
        r == Err(ValidateEventFields(title, text).value) && events == old(events) && uploads == old(uploads)
      ensures ValidateEventFields(title, text).None? && id !in old(events) ==>
        r == Err(EntityNotFound) && events == old(events) && uploads == old(uploads)
      ensures ValidateEventFields(title, text).None? && id in old(events) ==>
        uploads == old(uploads) + (if HasContent(file) then [file.value] else [])
      ensures ValidateEventFields(title, text).None? && id in old(events) && HasContent(file) && upload.Failed? ==>
        r == Err(UploadError(UploadFailedMessage)) && events == old(events)
      ensures ValidateEventFields(title, text).None? && id in old(events) && !(HasContent(file) && upload.Failed?) ==>
        var stored := MultipartFields(old(events)[id], title, text, link, date, NewImageKey(file, upload))
                        .(updatedAt := Some(now));
        && events == old(events)[id := stored]
        && r == Ok(ToResponse(stored, s3))
    {
      var invalid := ValidateEventFields(title, text);
      if invalid.Some? {
        return Err(invalid.value);
      }
      if id !in events {
        return Err(EntityNotFound);
      }
      var event := new Event.Load(events[id]);
      var err := SetEventFieldsFromMultipart(event, file, title, text, link, date, upload);
      if err.Some? {
        return Err(err.value);
      }
      event.updatedAt := Some(now);
      var saved := Save(event, now);
      r := Ok(ToResponse(saved, s3));
    }
  }
}

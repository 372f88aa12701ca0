// The incident-report page (pages/ReportPage.tsx): a newest-first list of
// reports kept in component state, a two-field form whose submit prepends a
// new report, and a snapshot of the list kept in browser storage.
module ReportPage {
  import opened Types
  import opened Text

  /** The storage key the list is kept under. */
  const StorageKey := "cybersec_reports"

  /** Every report id is this prefix followed by the creation timestamp. */
  const IdPrefix := "CYB-"

  /** localStorage, as the page sees it: string keys to string values. */
  type Storage = map<string, string>

  /**
   * JSON.stringify and JSON.parse restricted to report lists. Parsing may
   * fail (corrupt or foreign content), which is why it returns an Option.
   */
  datatype Codec = Codec(stringify: seq<Report> -> string, parse: string -> Option<seq<Report>>)

  /**
   * What JSON guarantees for lists of string-valued records: the text of a
   * list is never empty (it is at least "[]") and parsing it gives the list back.
   */
  ghost predicate Faithful(codec: Codec)
  {
    forall rs :: codec.stringify(rs) != [] && codec.parse(codec.stringify(rs)) == Some(rs)
  }

  /**
   * The initial state of `reports`: the empty list when the key is absent or
   * holds a falsy (empty) string or text that does not parse; the parsed list otherwise.
   */
  function LoadReports(storage: Storage, codec: Codec): (rs: seq<Report>)
    ensures StorageKey !in storage ==> rs == []
    ensures StorageKey in storage && storage[StorageKey] == [] ==> rs == []
    ensures StorageKey in storage && codec.parse(storage[StorageKey]).None? ==> rs == []
    ensures StorageKey in storage && storage[StorageKey] != [] && codec.parse(storage[StorageKey]).Some? ==>
              rs == codec.parse(storage[StorageKey]).value
  {
    if StorageKey in storage && storage[StorageKey] != [] then
      match codec.parse(storage[StorageKey])
      case Some(parsed) => parsed
      case None => []
    else []
  }

  /** The persist effect: the whole list is written as one snapshot under the key; no other key changes. */
  function SaveReports(storage: Storage, codec: Codec, rs: seq<Report>): (s: Storage)
    ensures StorageKey in s && s[StorageKey] == codec.stringify(rs)
    ensures s.Keys == storage.Keys + {StorageKey}
    ensures forall k :: k in storage && k != StorageKey ==> s[k] == storage[k]
  {
    storage[StorageKey := codec.stringify(rs)]
  }

  /** Loading what was saved gives back the saved list. */
  lemma SaveThenLoad(storage: Storage, codec: Codec, rs: seq<Report>)
    requires Faithful(codec)
    ensures LoadReports(SaveReports(storage, codec, rs), codec) == rs
  {
    assert codec.stringify(rs) != [];
  }

  /** Loading a saved snapshot and saving the result writes back the same text. */
  lemma LoadThenSaveIdempotent(storage: Storage, codec: Codec, rs: seq<Report>)
    requires Faithful(codec)
    requires StorageKey in storage && storage[StorageKey] == codec.stringify(rs)
    ensures SaveReports(storage, codec, LoadReports(storage, codec)) == storage
  {
    assert codec.stringify(rs) != [];
  }

  /**
   * The submit guard and the button's enabled state: both fields are truthy,
   * that is, non-empty. Whitespace counts as content.
   */
  predicate CanSubmit(incidentType: string, description: string)
    ensures CanSubmit(incidentType, description) <==> |incidentType| > 0 && |description| > 0
    ensures |incidentType| > 0 && AllWhitespace(description) && |description| > 0 ==>
              CanSubmit(incidentType, description)
  {
    incidentType != [] && description != []
  }

  /** An id of the form "CYB-" followed by decimal digits. */
  predicate IsCaseId(id: string)
  {
    StartsWith(id, IdPrefix) && |id| > |IdPrefix| && AllDigits(id[|IdPrefix|..])
  }

  /** The timestamp a case id was made from. */
  function CaseIdTimestamp(id: string): nat
    requires IsCaseId(id)
  {
    DecimalValue(id[|IdPrefix|..])
  }

  /**
   * The report a submit creates: the form's fields verbatim, status
   * Submitted, and an id that is the prefix followed by the timestamp
   * `now` (Date.now()); `date` is the ISO string of a second clock reading
   * (new Date()), which the model does not tie to `now`.
   */
  function NewReport(incidentType: string, description: string, now: nat, date: string): (r: Report)
    ensures r.id == IdPrefix + NatToDecimal(now)
    ensures IsCaseId(r.id) && CaseIdTimestamp(r.id) == now
    ensures r.incidentType == incidentType && r.description == description
    ensures r.date == date && r.status == Submitted
  {
    var digits := NatToDecimal(now);
    var id := IdPrefix + digits;
    assert id[|IdPrefix|..] == digits;
    DecimalRoundTrip(now);
    Report.Report(id, incidentType, date, description, Submitted)
  }

  /** Reports submitted at different timestamps get different ids, whatever their fields. */
  lemma DistinctTimestampsDistinctIds(type1: string, desc1: string, t1: nat, date1: string,
                                      type2: string, desc2: string, t2: nat, date2: string)
    requires t1 != t2
    ensures NewReport(type1, desc1, t1, date1).id != NewReport(type2, desc2, t2, date2).id
  {
    var a := NewReport(type1, desc1, t1, date1);
    var b := NewReport(type2, desc2, t2, date2);
    assert CaseIdTimestamp(a.id) != CaseIdTimestamp(b.id);
  }

  /** The state of the page component. */
  class ReportForm {
    var reports: seq<Report>
    var incidentType: string
    var description: string
    var showSuccess: bool
    var storage: Storage
    const codec: Codec
    /** The report the latest accepted submit created. */
    ghost var lastSubmitted: Option<Report>

    /**
     * The stored snapshot is always the serialization of the current list,
     * and while the success banner shows, the newest report is the one just submitted.
     */
    ghost predicate Valid()
      reads this
    {
      && Faithful(codec)
      && StorageKey in storage && storage[StorageKey] == codec.stringify(reports)
      && (showSuccess ==> lastSubmitted.Some? && |reports| > 0 && reports[0] == lastSubmitted.value)
    }

    /** The line the success banner shows, if it shows: the id of reports[0], or nothing for an empty list. */
    function Banner(): (b: Option<string>)
      reads this
      ensures b.Some? <==> showSuccess
      ensures showSuccess && |reports| > 0 ==> b == Some(reports[0].id)
    {
      if !showSuccess then None
      else if |reports| == 0 then Some([])
      else Some(reports[0].id)
    }

    /** Whether the submit button is enabled (it is disabled while a field is empty). */
    function SubmitEnabled(): (enabled: bool)
      reads this
      ensures enabled <==> incidentType != [] && description != []
    {
      CanSubmit(incidentType, description)
    }

    /** Mounting: the lazy initial load, then the persist effect's first run. */
    constructor (initialStorage: Storage, codec: Codec)
      requires Faithful(codec)
      ensures Valid()
      ensures this.codec == codec
      ensures reports == LoadReports(initialStorage, codec)
      ensures storage == SaveReports(initialStorage, codec, reports)
      ensures incidentType == [] && description == [] && !showSuccess
    {
      this.codec := codec;
      reports := LoadReports(initialStorage, codec);
      incidentType := [];
      description := [];
      showSuccess := false;
      lastSubmitted := None;
      new;
      storage := SaveReports(initialStorage, codec, reports);
    }

    /** The select's onChange. */
    method SetIncidentType(value: string)
      requires Valid()
      modifies this
      ensures Valid()
      ensures incidentType == value
      ensures reports == old(reports) && description == old(description)
      ensures showSuccess == old(showSuccess) && storage == old(storage)
      ensures lastSubmitted == old(lastSubmitted)
    {
      incidentType := value;
    }

    /** The textarea's onChange. */
    method SetDescription(value: string)
      requires Valid()
      modifies this
      ensures Valid()
      ensures description == value
      ensures reports == old(reports) && incidentType == old(incidentType)
      ensures showSuccess == old(showSuccess) && storage == old(storage)
      ensures lastSubmitted == old(lastSubmitted)
    {
      description := value;
    }

    /**
     * handleSubmit. With an empty field nothing changes. Otherwise the new
     * report is prepended, both fields are cleared, the banner is raised, and
     * the persist effect writes the new list.
     */
    method HandleSubmit(now: nat, date: string)
      requires Valid()
      modifies this
      ensures Valid()
      ensures !old(SubmitEnabled()) ==>
                reports == old(reports) && incidentType == old(incidentType)
                && description == old(description) && showSuccess == old(showSuccess)
                && storage == old(storage) && lastSubmitted == old(lastSubmitted)
      ensures old(SubmitEnabled()) ==>
                reports == [NewReport(old(incidentType), old(description), now, date)] + old(reports)
                && incidentType == [] && description == [] && showSuccess
                && storage == SaveReports(old(storage), codec, reports)
                && Banner() == Some(reports[0].id) && lastSubmitted == Some(reports[0])
    {
      if !CanSubmit(incidentType, description) {
        return;
      }
      var report := NewReport(incidentType, description, now, date);
      reports := [report] + reports;
      incidentType := [];
      description := [];
      showSuccess := true;
      lastSubmitted := Some(report);
      storage := SaveReports(storage, codec, reports);
    }

    /** The timer callback that takes the banner down. */
    method HideSuccess()
      requires Valid()
      modifies this
      ensures Valid()
      ensures !showSuccess
      ensures reports == old(reports) && incidentType == old(incidentType)
      ensures description == old(description) && storage == old(storage)
      ensures lastSubmitted == old(lastSubmitted)
    {
      showSuccess := false;
    }
  }

  /** The user picks a type, types a description and submits: one report is prepended. */
  method FillAndSubmit(form: ReportForm, incidentType: string, description: string, now: nat, date: string)
    requires form.Valid() && incidentType != [] && description != []
    modifies form
    ensures form.Valid()
    ensures form.reports == [NewReport(incidentType, description, now, date)] + old(form.reports)
    ensures form.storage == SaveReports(old(form.storage), form.codec, form.reports)
  {
    form.SetIncidentType(incidentType);
    form.SetDescription(description);
    form.HandleSubmit(now, date);
  }

  /** Whenever the form is in a valid state, reloading the stored snapshot gives the current list. */
  lemma ReloadGivesCurrent(form: ReportForm)
    requires form.Valid()
    ensures LoadReports(form.storage, form.codec) == form.reports
  {
    SaveThenLoad(form.storage, form.codec, form.reports);
    assert SaveReports(form.storage, form.codec, form.reports) == form.storage;
  }

  /**
   * A phishing report followed by a ransomware report: the list grows by
   * two, newest first, each with status Submitted and a case id, and a
   * reload of the stored snapshot gives back the same list.
   */
  method SubmitTwo(initialStorage: Storage, codec: Codec, t1: nat, t2: nat, d1: string, d2: string)
    returns (shown: seq<Report>, reloaded: seq<Report>)
    requires Faithful(codec)
    ensures |shown| == |LoadReports(initialStorage, codec)| + 2
    ensures shown[0].incidentType == "Malware/Ransomware" && shown[0].description == "Ransom note appeared"
    ensures shown[1].incidentType == "Phishing" && shown[1].description == "Received a fake bank email"
    ensures shown[0].status == Submitted && IsCaseId(shown[0].id) && CaseIdTimestamp(shown[0].id) == t2
    ensures shown[1].status == Submitted && IsCaseId(shown[1].id) && CaseIdTimestamp(shown[1].id) == t1
    ensures shown[2..] == LoadReports(initialStorage, codec)
    ensures reloaded == shown
  {
    var form := new ReportForm(initialStorage, codec);
    ghost var loaded := form.reports;
    FillAndSubmit(form, "Phishing", "Received a fake bank email", t1, d1);
    ghost var phishing := NewReport("Phishing", "Received a fake bank email", t1, d1);
    FillAndSubmit(form, "Malware/Ransomware", "Ransom note appeared", t2, d2);
    ghost var ransomware := NewReport("Malware/Ransomware", "Ransom note appeared", t2, d2);
    assert form.reports == [ransomware] + ([phishing] + loaded);
    shown := form.reports;
    assert shown[2..] == loaded;
    reloaded := LoadReports(form.storage, codec);
    SaveThenLoad(form.storage, codec, shown);
  }
}

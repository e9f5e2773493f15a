/**
 * The knowledge base: rendering a campus record as the text document that is
 * embedded, and the one-time population of the persistent collection.
 *
 * A record is the parsed JSON object of one campus entry. A key that the JSON
 * object lacks is `None`; reading it with `entry[key]` raises `KeyError(key)`,
 * and reading it with `entry.get(key)` gives the default.
 */
module KnowledgeBase {
  import opened Wrappers
  import opened PyStr

  // ---------------------------------------------------------------------------
  // Records
  // ---------------------------------------------------------------------------

  /**
   * The value under "hours": a JSON object from period keys to time ranges, in
   * the object's order (its keys are distinct), or any value that is not an object.
   */
  datatype HoursValue = Periods(periods: seq<(string, string)>) | NotADict

  /** One campus record; `kind` is the record's "type" key. */
  datatype Entry = Entry(
    id: Option<string>,
    name: Option<string>,
    kind: Option<string>,
    location: Option<string>,
    hours: Option<HoursValue>,
    description: Option<string>,
    contact: Option<string>,
    additionalInfo: Option<seq<string>>)

  datatype KeyError = KeyError(key: string)

  /** The keys the document reads with `entry[key]`, in the order it reads them. */
  const RequiredKeys: seq<string> := ["name", "type", "location", "description", "contact"]

  /** The string-valued field a record key names. */
  function Field(e: Entry, key: string): Option<string>
  {
    if key == "id" then e.id
    else if key == "name" then e.name
    else if key == "type" then e.kind
    else if key == "location" then e.location
    else if key == "description" then e.description
    else if key == "contact" then e.contact
    else None
  }

  predicate HasRequiredFields(e: Entry)
  {
    e.name.Some? && e.kind.Some? && e.location.Some? && e.description.Some? && e.contact.Some?
  }

  /** The keys of `keys` that the record lacks, in order. */
  function MissingKeys(e: Entry, keys: seq<string>): seq<string>
  {
    if |keys| == 0 then []
    else (if Field(e, keys[0]).None? then [keys[0]] else []) + MissingKeys(e, keys[1..])
  }

  // ---------------------------------------------------------------------------
  // entry_to_document
  // ---------------------------------------------------------------------------

  /** A period key made readable: underscores become spaces, then the result is title-cased. */
  function Label(period: string): string
  {
    Title(Replace(period, '_', ' '))
  }

  function HoursLine(period: string, time: string): string
  {
    "  " + Label(period) + ": " + time
  }

  /** One line per period of the hours object, in the object's order. */
  function HoursLines(periods: seq<(string, string)>): seq<string>
  {
    if |periods| == 0 then []
    else HoursLines(periods[..|periods| - 1]) + [HoursLine(periods[|periods| - 1].0, periods[|periods| - 1].1)]
  }

  /** The period lines, which exist only when "hours" holds an object. */
  function PeriodLines(hours: Option<HoursValue>): seq<string>
  {
    match hours
    case Some(Periods(periods)) => HoursLines(periods)
    case _ => []
  }

  const NotSpecified: string := "  Not specified"

  function HoursText(hours: Option<HoursValue>): string
  {
    var lines := PeriodLines(hours);
    if |lines| > 0 then Join("\n", lines) else NotSpecified
  }

  /** The notes under "additional_info", the empty list when the key is absent. */
  function Notes(e: Entry): seq<string>
  {
    match e.additionalInfo
    case Some(items) => items
    case None => []
  }

  function Bullets(items: seq<string>): seq<string>
  {
    seq(|items|, i requires 0 <= i < |items| => "  - " + items[i])
  }

  /**
   * The document for a record, or the `KeyError` its first missing required
   * key raises. The hours text and the notes are computed first and never raise.
   */
  function Document(e: Entry): (r: Result<string, KeyError>)
    ensures r.Ok? <==> HasRequiredFields(e)
  {
    if e.name.None? then Err(KeyError("name"))
    else if e.kind.None? then Err(KeyError("type"))
    else if e.location.None? then Err(KeyError("location"))
    else if e.description.None? then Err(KeyError("description"))
    else if e.contact.None? then Err(KeyError("contact"))
    else Ok(Render(e.name.value, e.kind.value, e.location.value, HoursText(e.hours),
                   e.description.value, e.contact.value, Join("\n", Bullets(Notes(e)))))
  }

  /** The document's f-string, given the field values and the two rendered sections. */
  function Render(name: string, kind: string, location: string, hoursText: string,
                  description: string, contact: string, additional: string): string
  {
    "Name: " + name + "\n"
    + ("Type: " + kind + "\n"
    + ("Location: " + location + "\n"
    + ("Hours:\n" + (hoursText + "\n"
    + ("Description: " + description + "\n"
    + ("Contact: " + contact + "\n"
    + ("Additional Info:\n" + additional)))))))
  }

  /**
   * `entry_to_document`: builds the hours lines in a loop, then the document.
   */
  method EntryToDocument(entry: Entry) returns (r: Result<string, KeyError>)
    ensures r == Document(entry)
  {
    var hoursLines: seq<string> := [];
    if entry.hours.Some? && entry.hours.value.Periods? {
      var periods := entry.hours.value.periods;
      var i := 0;
      while i < |periods|
        invariant 0 <= i <= |periods|
        invariant hoursLines == HoursLines(periods[..i])
      {
        assert periods[..i + 1][..i] == periods[..i];
        hoursLines := hoursLines + [HoursLine(periods[i].0, periods[i].1)];
        i := i + 1;
      }
      assert periods[..i] == periods;
    }
    var hoursText := if |hoursLines| > 0 then Join("\n", hoursLines) else NotSpecified;
    var additional := Join("\n", Bullets(Notes(entry)));
    if entry.name.None? { return Err(KeyError("name")); }
    if entry.kind.None? { return Err(KeyError("type")); }
    if entry.location.None? { return Err(KeyError("location")); }
    if entry.description.None? { return Err(KeyError("description")); }
    if entry.contact.None? { return Err(KeyError("contact")); }
    r := Ok(Render(entry.name.value, entry.kind.value, entry.location.value, hoursText,
                   entry.description.value, entry.contact.value, additional));
  }

  // ---------------------------------------------------------------------------
  // Properties of the document
  // ---------------------------------------------------------------------------

  /** The error a record without some required key raises names the first such key, in reading order. */
  lemma DocumentMissingKey(e: Entry)
    ensures Document(e).Err? <==> MissingKeys(e, RequiredKeys) != []
    ensures Document(e).Err? ==> Document(e).error.key == MissingKeys(e, RequiredKeys)[0]
  {
    var ks := RequiredKeys;
    var m4 := if e.contact.None? then ["contact"] else [];
    var m3 := (if e.description.None? then ["description"] else []) + m4;
    var m2 := (if e.location.None? then ["location"] else []) + m3;
    var m1 := (if e.kind.None? then ["type"] else []) + m2;
    var m0 := (if e.name.None? then ["name"] else []) + m1;
    assert ks[1..][1..][1..][1..][1..] == [];
    assert MissingKeys(e, ks[1..][1..][1..][1..]) == m4;
    assert ks[1..][1..][1..] == ["description", "contact"];
    assert MissingKeys(e, ks[1..][1..][1..]) == m3;
    assert ks[1..][1..] == ["location", "description", "contact"];
    assert MissingKeys(e, ks[1..][1..]) == m2;
    assert ks[1..] == ["type", "location", "description", "contact"];
    assert MissingKeys(e, ks[1..]) == m1;
    assert MissingKeys(e, ks) == m0;
  }

  /** "hours" and "additional_info" are read with defaults: whatever they hold, they decide no error. */
  lemma OptionalFieldsNeverRaise(e: Entry, hours: Option<HoursValue>, notes: Option<seq<string>>)
    ensures Document(e.(hours := hours, additionalInfo := notes)).Ok? == Document(e).Ok?
  {
  }

  /** Exactly one line per period, in the object's order, each "  Label: time". */
  lemma {:induction false} HoursLinesAt(periods: seq<(string, string)>)
    ensures |HoursLines(periods)| == |periods|
    ensures forall i :: 0 <= i < |periods| ==>
      HoursLines(periods)[i] == "  " + Label(periods[i].0) + ": " + periods[i].1
  {
    if |periods| > 0 {
      HoursLinesAt(periods[..|periods| - 1]);
    }
  }

  /** The hours section is the placeholder alone unless "hours" is a non-empty object. */
  lemma HoursPlaceholder(hours: Option<HoursValue>)
    ensures HoursText(hours) == NotSpecified <==>
      !(hours.Some? && hours.value.Periods? && |hours.value.periods| > 0)
  {
    var lines := PeriodLines(hours);
    if hours.Some? && hours.value.Periods? && |lines| > 0 {
      HoursLinesAt(hours.value.periods);
      var first := lines[0];
      var joined := Join("\n", lines);
      if |lines| > 1 {
        assert joined == first + "\n" + Join("\n", lines[1..]);
      }
      assert joined[..|first|] == first;
      var colon := 2 + |Label(hours.value.periods[0].0)|;
      assert first[colon] == ':';
      assert joined[colon] == ':';
      assert ':' !in NotSpecified;
    }
  }

  /** With no notes, nothing follows the "Additional Info:" header and its newline. */
  lemma NoNotesEndsWithHeader(e: Entry)
    requires HasRequiredFields(e) && Notes(e) == []
    ensures var d := Document(e).value;
      |d| >= 17 && d[|d| - 17..] == "Additional Info:\n"
  {
    var d := Document(e).value;
    var header := "Additional Info:\n";
    assert Join("\n", Bullets(Notes(e))) == "";
    var front := "Name: " + e.name.value + "\n"
      + ("Type: " + e.kind.value + "\n"
      + ("Location: " + e.location.value + "\n"
      + ("Hours:\n" + (HoursText(e.hours) + "\n"
      + ("Description: " + e.description.value + "\n"
      + ("Contact: " + e.contact.value + "\n"))))));
    assert d == front + header;
  }

  /** The label of a period key, character by character: '_' reads as a space and every word starts upper case. */
  lemma LabelAt(period: string)
    ensures |Label(period)| == |period|
    ensures forall i {:trigger Label(period)[i]} :: 0 <= i < |period| ==>
              Label(period)[i] == (if period[i] == '_' then ' '
                                   else if !IsLetter(period[i]) then period[i]
                                   else if i > 0 && IsLetter(period[i - 1]) then ToLower(period[i])
                                   else ToUpper(period[i]))
  {
    TitleAt(Replace(period, '_', ' '));
  }

  /** The document's lines as the reader sees them, in the fixed order of the record's fields. */
  function DocumentLines(e: Entry): seq<string>
    requires HasRequiredFields(e)
  {
    var periodLines := PeriodLines(e.hours);
    var bullets := Bullets(Notes(e));
    ["Name: " + e.name.value, "Type: " + e.kind.value, "Location: " + e.location.value, "Hours:"]
    + (if periodLines == [] then [NotSpecified] else periodLines)
    + ["Description: " + e.description.value, "Contact: " + e.contact.value, "Additional Info:"]
    + (if bullets == [] then [""] else bullets)
  }

  /** The document's lines, with both sections given as lists of lines. */
  function LinesOf(name: string, kind: string, location: string, hours: seq<string>,
                   description: string, contact: string, tail: seq<string>): seq<string>
  {
    ["Name: " + name, "Type: " + kind, "Location: " + location, "Hours:"] + hours
    + ["Description: " + description, "Contact: " + contact, "Additional Info:"] + tail
  }

  /** Joining three leading lines puts a newline after each of them. */
  lemma JoinThree(a: string, b: string, c: string, rest: seq<string>)
    requires |rest| > 0
    ensures Join("\n", [a] + ([b] + ([c] + rest))) == a + "\n" + (b + "\n" + (c + "\n" + Join("\n", rest)))
  {
    JoinCons("\n", a, [b] + ([c] + rest));
    JoinCons("\n", b, [c] + rest);
    JoinCons("\n", c, rest);
  }

  /** The document's lines, regrouped one line at a time from the front. */
  lemma LinesOfShape(name: string, kind: string, location: string, hours: seq<string>,
                     description: string, contact: string, tail: seq<string>)
    ensures LinesOf(name, kind, location, hours, description, contact, tail)
         == ["Name: " + name] + (["Type: " + kind] + (["Location: " + location] + (["Hours:"]
            + (hours + (["Description: " + description] + (["Contact: " + contact] + (["Additional Info:"] + tail)))))))
  {
  }

  /** Joining the document's lines, peeled line by line. */
  lemma LinesNested(name: string, kind: string, location: string, hours: seq<string>,
                    description: string, contact: string, tail: seq<string>)
    requires |hours| > 0 && |tail| > 0
    ensures Join("\n", LinesOf(name, kind, location, hours, description, contact, tail))
         == Render(name, kind, location, Join("\n", hours), description, contact, Join("\n", tail))
  {
    var m := ["Description: " + description] + (["Contact: " + contact] + (["Additional Info:"] + tail));
    var x := hours + m;
    LinesOfShape(name, kind, location, hours, description, contact, tail);
    JoinThree("Name: " + name, "Type: " + kind, "Location: " + location, ["Hours:"] + x);
    JoinCons("\n", "Hours:", x);
    JoinAppend("\n", hours, m);
    JoinThree("Description: " + description, "Contact: " + contact, "Additional Info:", tail);
    assert "Hours:" + "\n" == "Hours:\n";
    assert "Additional Info:" + "\n" == "Additional Info:\n";
  }

  /** The document is its lines joined with newlines; with no notes it ends in "Additional Info:\n". */
  lemma DocumentAsLines(e: Entry)
    requires HasRequiredFields(e)
    ensures Document(e) == Ok(Join("\n", DocumentLines(e)))
  {
    var periodLines := PeriodLines(e.hours);
    var bullets := Bullets(Notes(e));
    var hours := if periodLines == [] then [NotSpecified] else periodLines;
    var tail := if bullets == [] then [""] else bullets;
    assert Join("\n", hours) == HoursText(e.hours);
    assert Join("\n", tail) == Join("\n", bullets);
    assert DocumentLines(e) == LinesOf(e.name.value, e.kind.value, e.location.value, hours,
                                       e.description.value, e.contact.value, tail);
    LinesNested(e.name.value, e.kind.value, e.location.value, hours,
                e.description.value, e.contact.value, tail);
  }


  /** No field value, period key, time range or note of the record holds a line break. */
  predicate NewlineFree(e: Entry)
  {
    && (forall k :: 0 <= k < |RequiredKeys| && Field(e, RequiredKeys[k]).Some? ==>
          '\n' !in Field(e, RequiredKeys[k]).value)
    && (e.hours.Some? && e.hours.value.Periods? ==>
          forall i :: 0 <= i < |e.hours.value.periods| ==>
            '\n' !in e.hours.value.periods[i].0 && '\n' !in e.hours.value.periods[i].1)
    && (forall i :: 0 <= i < |Notes(e)| ==> '\n' !in Notes(e)[i])
  }

  lemma LabelNewlineFree(period: string)
    requires '\n' !in period
    ensures '\n' !in Label(period)
  {
    LabelAt(period);
    forall i | 0 <= i < |period|
      ensures Label(period)[i] != '\n'
    {
      var c := period[i];
      assert Label(period)[i] == (if c == '_' then ' '
                                  else if !IsLetter(c) then c
                                  else if i > 0 && IsLetter(period[i - 1]) then ToLower(c)
                                  else ToUpper(c));
    }
  }

  /**
   * Read line by line, the document of a record whose values hold no line
   * breaks is: Name, Type, Location, "Hours:", the hours section, Description,
   * Contact, "Additional Info:", then one bullet per note, or a last empty
   * line when there are no notes.
   */
  lemma DocumentSplitsIntoLines(e: Entry)
    requires HasRequiredFields(e) && NewlineFree(e)
    ensures Split(Document(e).value, '\n') == DocumentLines(e)
  {
    DocumentAsLines(e);
    LinesNewlineFree(e);
    SplitJoin(DocumentLines(e), '\n');
  }

  /** No line of the document of a record without line breaks holds one. */
  lemma LinesNewlineFree(e: Entry)
    requires HasRequiredFields(e) && NewlineFree(e)
    ensures forall i :: 0 <= i < |DocumentLines(e)| ==> '\n' !in DocumentLines(e)[i]
  {
    var lines := DocumentLines(e);
    var periodLines := PeriodLines(e.hours);
    assert Field(e, RequiredKeys[0]) == e.name;
    assert Field(e, RequiredKeys[1]) == e.kind;
    assert Field(e, RequiredKeys[2]) == e.location;
    assert Field(e, RequiredKeys[3]) == e.description;
    assert Field(e, RequiredKeys[4]) == e.contact;
    if e.hours.Some? && e.hours.value.Periods? {
      var periods := e.hours.value.periods;
      HoursLinesAt(periods);
      forall i | 0 <= i < |periodLines|
        ensures '\n' !in periodLines[i]
      {
        LabelNewlineFree(periods[i].0);
      }
    }
    forall i | 0 <= i < |lines|
      ensures '\n' !in lines[i]
    {
    }
  }

  // ---------------------------------------------------------------------------
  // Index entries and the batch built from the records
  // ---------------------------------------------------------------------------

  /** The metadata stored beside a document: exactly these four record fields. */
  datatype Metadata = Metadata(name: string, kind: string, location: string, contact: string)

  datatype IndexEntry = IndexEntry(id: string, document: string, metadata: Metadata)

  /**
   * What the population loop makes of one record: its document, then its "id"
   * (read after the document, so a record lacking both reports the document's key).
   */
  function IndexEntryOf(e: Entry): Result<IndexEntry, KeyError>
  {
    match Document(e)
    case Err(k) => Err(k)
    case Ok(text) =>
      if e.id.None? then Err(KeyError("id"))
      else Ok(IndexEntry(e.id.value, text, Metadata(e.name.value, e.kind.value, e.location.value, e.contact.value)))
  }

  /** The outcomes of the loop body for each record, in order. */
  function Results(data: seq<Entry>): (r: seq<Result<IndexEntry, KeyError>>)
    ensures |r| == |data| && forall i :: 0 <= i < |data| ==> r[i] == IndexEntryOf(data[i])
  {
    seq(|data|, i requires 0 <= i < |data| => IndexEntryOf(data[i]))
  }

  /** Entries collected from per-record outcomes in order; the first error stops the collection. */
  function Gather(results: seq<Result<IndexEntry, KeyError>>): Result<seq<IndexEntry>, KeyError>
  {
    if |results| == 0 then Ok([])
    else match Gather(results[..|results| - 1])
      case Err(k) => Err(k)
      case Ok(entries) =>
        match results[|results| - 1]
        case Err(k) => Err(k)
        case Ok(entry) => Ok(entries + [entry])
  }

  /** The batch for a list of records: the entries in order, or the error of the first record that fails. */
  function Batch(data: seq<Entry>): Result<seq<IndexEntry>, KeyError>
  {
    Gather(Results(data))
  }

  /** The entries `collection.add(ids=..., documents=..., metadatas=...)` stores: the three lists zipped. */
  function Zip(ids: seq<string>, documents: seq<string>, metadatas: seq<Metadata>): (r: seq<IndexEntry>)
    requires |ids| == |documents| == |metadatas|
  {
    seq(|ids|, i requires 0 <= i < |ids| => IndexEntry(ids[i], documents[i], metadatas[i]))
  }

  /** Gathering succeeds exactly when every outcome is an entry, and then holds those entries in order. */
  lemma {:induction false} GatherOk(results: seq<Result<IndexEntry, KeyError>>)
    ensures Gather(results).Ok? <==> forall i :: 0 <= i < |results| ==> results[i].Ok?
    ensures Gather(results).Ok? ==>
              && |Gather(results).value| == |results|
              && forall i :: 0 <= i < |results| ==> Gather(results).value[i] == results[i].value
  {
    if |results| > 0 {
      var init := results[..|results| - 1];
      GatherOk(init);
      assert forall i :: 0 <= i < |init| ==> init[i] == results[i];
    }
  }

  /** A failed gathering carries the error of its first failing outcome. */
  lemma {:induction false} GatherFirstError(results: seq<Result<IndexEntry, KeyError>>)
    requires Gather(results).Err?
    ensures exists i :: && 0 <= i < |results|
                        && results[i] == Err(Gather(results).error)
                        && forall j :: 0 <= j < i ==> results[j].Ok?
  {
    var init := results[..|results| - 1];
    assert forall i :: 0 <= i < |init| ==> init[i] == results[i];
    if Gather(init).Err? {
      GatherFirstError(init);
    } else {
      GatherOk(init);
      assert results[|results| - 1] == Err(Gather(results).error);
    }
  }

  /** A failure among the first outcomes is the failure of the whole gathering. */
  lemma {:induction false} GatherPrefixError(results: seq<Result<IndexEntry, KeyError>>, n: nat)
    requires n <= |results| && Gather(results[..n]).Err?
    ensures Gather(results) == Gather(results[..n])
  {
    if n < |results| {
      assert results[..|results| - 1][..n] == results[..n];
      GatherPrefixError(results[..|results| - 1], n);
    } else {
      assert results[..n] == results;
    }
  }

  /**
   * The batch succeeds exactly when every record yields an entry; it then
   * holds entry i for record i. Otherwise its error is that of the first
   * failing record.
   */
  lemma BatchFollowsData(data: seq<Entry>)
    ensures Batch(data).Ok? <==> forall i :: 0 <= i < |data| ==> IndexEntryOf(data[i]).Ok?
    ensures Batch(data).Ok? ==>
              && |Batch(data).value| == |data|
              && forall i :: 0 <= i < |data| ==> Batch(data).value[i] == IndexEntryOf(data[i]).value
    ensures Batch(data).Err? ==>
              exists i :: && 0 <= i < |data|
                          && IndexEntryOf(data[i]) == Err(Batch(data).error)
                          && forall j :: 0 <= j < i ==> IndexEntryOf(data[j]).Ok?
  {
    GatherOk(Results(data));
    if Batch(data).Err? {
      GatherFirstError(Results(data));
    }
  }

  /**
   * Populating from records that all render: entry i has record i's id, its
   * document, and metadata copied from its name, type, location and contact.
   */
  lemma BatchEntries(data: seq<Entry>)
    requires Batch(data).Ok?
    ensures |Batch(data).value| == |data|
    ensures forall i :: 0 <= i < |data| ==>
      var entry := Batch(data).value[i];
      && Field(data[i], "id") == Some(entry.id)
      && Document(data[i]) == Ok(entry.document)
      && Field(data[i], "name") == Some(entry.metadata.name)
      && Field(data[i], "type") == Some(entry.metadata.kind)
      && Field(data[i], "location") == Some(entry.metadata.location)
      && Field(data[i], "contact") == Some(entry.metadata.contact)
  {
    BatchFollowsData(data);
  }

  /** A failure in a prefix of the records is the failure of the whole batch. */
  lemma BatchPrefixError(data: seq<Entry>, n: nat)
    requires n <= |data| && Batch(data[..n]).Err?
    ensures Batch(data) == Batch(data[..n])
  {
    assert Results(data)[..n] == Results(data[..n]);
    GatherPrefixError(Results(data), n);
  }

  /** What the collection holds after a population attempt, and the error that stopped it, if any. */
  datatype Population = Population(entries: seq<IndexEntry>, error: Option<KeyError>)

  /**
   * The population policy on a collection that holds `existing`: a non-empty
   * collection is left alone; an empty one receives the whole batch, or
   * nothing when a record fails.
   */
  function Populate(existing: seq<IndexEntry>, data: seq<Entry>): Population
  {
    if |existing| > 0 then Population(existing, None)
    else match Batch(data)
      case Ok(batch) => Population(existing + batch, None)
      case Err(k) => Population(existing, Some(k))
  }

  /** Populating twice without a reset leaves what the first population left. */
  lemma PopulateIdempotent(existing: seq<IndexEntry>, data: seq<Entry>)
    ensures var first := Populate(existing, data);
      Populate(first.entries, data) == Population(first.entries, first.error)
  {
  }

  /** A reset starts from an empty collection, so the result no longer depends on the old entries. */
  lemma PopulateEmpty(data: seq<Entry>)
    ensures Populate([], data).error.None? <==> Batch(data).Ok?
    ensures Populate([], data).error.None? ==> Populate([], data).entries == Batch(data).value
    ensures Populate([], data).error.Some? ==> Populate([], data).entries == []
  {
  }

  // ---------------------------------------------------------------------------
  // The vector store
  // ---------------------------------------------------------------------------

  /** The collection's name in the store. */
  const CollectionName: string := "campus_resources"

  /**
   * A collection of the vector store. The embedding of each document is
   * computed by the store and is not part of this model.
   */
  class Collection {
    var entries: seq<IndexEntry>

    constructor ()
      ensures entries == []
    {
      entries := [];
    }

    method Count() returns (n: nat)
      ensures n == |entries|
    {
      n := |entries|;
    }

    /** Appends one entry per position of the three parallel lists. */
    method Add(ids: seq<string>, documents: seq<string>, metadatas: seq<Metadata>)
      requires |ids| == |documents| == |metadatas|
      modifies this
      ensures entries == old(entries) + Zip(ids, documents, metadatas)
    {
      entries := entries + Zip(ids, documents, metadatas);
    }
  }

  /** The persistent store client: its collections by name. */
  class Store {
    var collections: map<string, Collection>

    constructor (collections: map<string, Collection>)
      ensures this.collections == collections
    {
      this.collections := collections;
    }

    /**
     * Deletes the named collection. It raises when there is none to delete,
     * and when the store itself fails (`fails`), in which case nothing is deleted.
     */
    method DeleteCollection(name: string, fails: bool) returns (raised: bool)
      modifies this
      ensures raised <==> fails || name !in old(collections)
      ensures collections == if fails then old(collections) else old(collections) - {name}
    {
      raised := fails || name !in collections;
      if !fails {
        collections := collections - {name};
      }
    }

    /** The named collection, created empty when the store has none. */
    method GetOrCreate(name: string) returns (c: Collection)
      modifies this
      ensures name in old(collections) ==> c == old(collections)[name] && collections == old(collections)
      ensures name !in old(collections) ==> fresh(c) && c.entries == [] && collections == old(collections)[name := c]
    {
      if name in collections {
        c := collections[name];
      } else {
        c := new Collection();
        collections := collections[name := c];
      }
    }
  }

  /** One more record extends the batch of the records before it, or fails. */
  lemma BatchStep(data: seq<Entry>, i: nat)
    requires i < |data|
    ensures Batch(data[..i + 1]) ==
      if Batch(data[..i]).Err? then Batch(data[..i])
      else if IndexEntryOf(data[i]).Err? then Err(IndexEntryOf(data[i]).error)
      else Ok(Batch(data[..i]).value + [IndexEntryOf(data[i]).value])
  {
    assert Results(data[..i + 1])[..i] == Results(data[..i]);
  }

  /** Appending to each of the three lists appends one entry to what they zip to. */
  lemma ZipSnoc(ids: seq<string>, documents: seq<string>, metadatas: seq<Metadata>,
                id: string, document: string, metadata: Metadata)
    requires |ids| == |documents| == |metadatas|
    ensures Zip(ids + [id], documents + [document], metadatas + [metadata])
         == Zip(ids, documents, metadatas) + [IndexEntry(id, document, metadata)]
  {
  }

  /**
   * The body of the population loop for one record: render its document,
   * read its id, and copy the four metadata fields.
   */
  method IndexRecord(record: Entry) returns (r: Result<IndexEntry, KeyError>)
    ensures r == IndexEntryOf(record)
  {
    var docText := EntryToDocument(record);
    if docText.Err? {
      return Err(docText.error);
    }
    if record.id.None? {
      return Err(KeyError("id"));
    }
    var metadata := Metadata(record.name.value, record.kind.value, record.location.value, record.contact.value);
    return Ok(IndexEntry(record.id.value, docText.value, metadata));
  }

  /**
   * The loop of `get_or_create_collection` that renders every record and
   * collects the parallel lists of ids, documents and metadatas for one
   * `add`, stopping at the first record that raises.
   */
  method CollectBatch(data: seq<Entry>)
    returns (ids: seq<string>, documents: seq<string>, metadatas: seq<Metadata>, error: Option<KeyError>)
    ensures |ids| == |documents| == |metadatas|
    ensures error.None? <==> Batch(data).Ok?
    ensures error.None? ==> Zip(ids, documents, metadatas) == Batch(data).value
    ensures error.Some? ==> Batch(data) == Err(error.value)
  {
    ids, documents, metadatas := [], [], [];
    var i := 0;
    assert data[..i] == [] && Zip(ids, documents, metadatas) == [];
    while i < |data|
      invariant 0 <= i <= |data|
      invariant |ids| == |documents| == |metadatas| == i
      invariant Batch(data[..i]) == Ok(Zip(ids, documents, metadatas))
    {
      BatchStep(data, i);
      var item := IndexRecord(data[i]);
      if item.Err? {
        BatchPrefixError(data, i + 1);
        return ids, documents, metadatas, Some(item.error);
      }
      var entry := item.value;
      ZipSnoc(ids, documents, metadatas, entry.id, entry.document, entry.metadata);
      ids, documents, metadatas := ids + [entry.id], documents + [entry.document], metadatas + [entry.metadata];
      i := i + 1;
    }
    assert data[..i] == data;
    error := None;
  }

  /**
   * `get_or_create_collection`: with `reset`, delete the collection first,
   * ignoring a failed delete (`deleteFails` says whether the store's delete
   * fails, which then keeps the old collection); open or create it; and
   * populate it from `data` (the loaded records) only when it is empty. A
   * record that fails raises its `KeyError` before anything is added.
   */
  method GetOrCreateCollection(client: Store, data: seq<Entry>, reset: bool, deleteFails: bool)
    returns (r: Result<Collection, KeyError>)
    modifies client, client.collections.Values
    ensures CollectionName in client.collections
    ensures var kept := !(reset && !deleteFails) && CollectionName in old(client.collections);
            var existing := if kept then old(client.collections[CollectionName].entries) else [];
            var p := Populate(existing, data);
            && client.collections[CollectionName].entries == p.entries
            && r == (if p.error.None? then Ok(client.collections[CollectionName]) else Err(p.error.value))
    ensures !(reset && !deleteFails) && CollectionName in old(client.collections) ==>
              client.collections[CollectionName] == old(client.collections[CollectionName])
    ensures (reset && !deleteFails) || CollectionName !in old(client.collections) ==>
              fresh(client.collections[CollectionName])
    ensures client.collections.Keys == old(client.collections.Keys) + {CollectionName}
    ensures forall name :: name in client.collections && name != CollectionName ==>
              client.collections[name] == old(client.collections[name])
  {
    if reset {
      var _ := client.DeleteCollection(CollectionName, deleteFails);
    }
    var collection := client.GetOrCreate(CollectionName);
    var count := collection.Count();
    if count == 0 {
      var ids, documents, metadatas, error := CollectBatch(data);
      if error.Some? {
        return Err(error.value);
      }
      collection.Add(ids, documents, metadatas);
    }
    r := Ok(collection);
  }

  /**
   * Two startups without a reset: the second finds what the first left and
   * adds nothing, whether the first populated the collection, found it
   * populated, or stopped at a bad record.
   */
  method StartTwice(client: Store, data: seq<Entry>) returns (afterFirst: seq<IndexEntry>)
    modifies client, client.collections.Values
    ensures CollectionName in client.collections
    ensures afterFirst == Populate(if CollectionName in old(client.collections)
                                   then old(client.collections[CollectionName].entries) else [], data).entries
    ensures client.collections[CollectionName].entries == afterFirst
  {
    ghost var existing := if CollectionName in client.collections
                          then client.collections[CollectionName].entries else [];
    var _ := GetOrCreateCollection(client, data, false, false);
    afterFirst := client.collections[CollectionName].entries;
    var _ := GetOrCreateCollection(client, data, false, false);
    PopulateIdempotent(existing, data);
  }
}

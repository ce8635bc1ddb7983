/**
 * StorageManager: the app's persistent repository. The browser's
 * localStorage is modelled as the three entries the manager owns, each a
 * typed slot (quiz history, covered-topic counts, user preferences). JSON
 * serialisation is not modelled: a slot holds the value a read would parse.
 */
module Storage {
  import opened Wrappers
  import opened QuizData
  import opened Seqs

  /** At most this many summaries are kept; older ones are dropped. */
  const HistoryLimit: nat := 20

  /**
   * One storage entry: the key is absent, holds the JSON text `null`, or
   * holds a value.
   */
  datatype Slot<T> = Missing | Null | Stored(value: T)

  /** `JSON.parse(localStorage.getItem(key)) || default`. */
  function Read<T>(slot: Slot<T>, default: T): T {
    if slot.Stored? then slot.value else default
  }

  datatype Store = Store(history: Slot<seq<HistoryEntry>>,
                         topics: Slot<TopicCounts>,
                         preferences: Slot<Preferences>)

  /** The preferences written for a missing entry. */
  function DefaultPreferences(): Preferences {
    map["theme" := PrefText("light"), "defaultTimeLimit" := PrefNumber(45)]
  }

  /** The state of a storage that has been cleared and initialised. */
  const DefaultStore: Store := Store(Stored([]), Stored(map[]), Stored(DefaultPreferences()))

  /** No entry present at all. */
  const EmptyStore: Store := Store(Missing, Missing, Missing)

  /**
   * `initializeStorage`: a default is written for each missing key; an entry
   * that is present (even one holding `null`) is left as it is.
   */
  function Initialized(s: Store): (r: Store)
    ensures !r.history.Missing? && !r.topics.Missing? && !r.preferences.Missing?
    ensures s.history.Missing? ==> r.history == Stored([])
    ensures s.topics.Missing? ==> r.topics == Stored(map[])
    ensures s.preferences.Missing? ==> r.preferences == Stored(DefaultPreferences())
    ensures !s.history.Missing? ==> r.history == s.history
    ensures !s.topics.Missing? ==> r.topics == s.topics
    ensures !s.preferences.Missing? ==> r.preferences == s.preferences
  {
    Store(if s.history.Missing? then Stored([]) else s.history,
          if s.topics.Missing? then Stored(map[]) else s.topics,
          if s.preferences.Missing? then Stored(DefaultPreferences()) else s.preferences)
  }

  /** `getQuizHistory`. */
  function HistoryOf(s: Store): seq<HistoryEntry> {
    Read(s.history, [])
  }

  /** `getCoveredTopics`. */
  function TopicsOf(s: Store): TopicCounts {
    Read(s.topics, map[])
  }

  /** `getUserPreferences`. */
  function PreferencesOf(s: Store): Preferences {
    Read(s.preferences, map[])
  }

  /**
   * `history.unshift(entry)` followed by `slice(0, 20)`: the new entry first,
   * then as much of the old list as fits.
   */
  function PushRecent(h: seq<HistoryEntry>, e: HistoryEntry): (r: seq<HistoryEntry>)
    ensures |r| == Min(|h| + 1, HistoryLimit)
    ensures r[0] == e && r[1..] == h[..|r| - 1]
  {
    ([e] + h)[..Min(|h| + 1, HistoryLimit)]
  }

  /** The history after saving each of `es` in turn. */
  function RecordAll(h: seq<HistoryEntry>, es: seq<HistoryEntry>): seq<HistoryEntry>
    decreases es
  {
    if es == [] then h else RecordAll(PushRecent(h, es[0]), es[1..])
  }

  lemma TakeOfTake(a: seq<HistoryEntry>, b: seq<HistoryEntry>, m: nat, n: nat)
    requires m <= |b| && n <= |a| + m
    ensures (a + b[..m])[..n] == (a + b)[..n]
  {
    forall k | 0 <= k < n ensures (a + b[..m])[k] == (a + b)[k] {
      if k >= |a| {
        assert (a + b[..m])[k] == b[..m][k - |a|];
      }
    }
  }

  /**
   * Saving `es` one after the other leaves the newest entries first, the old
   * history after them, and no more than twenty in all.
   */
  lemma {:induction false} RecordAllKeepsMostRecent(h: seq<HistoryEntry>, es: seq<HistoryEntry>)
    requires |h| <= HistoryLimit || es != []
    ensures RecordAll(h, es) == (Reversed(es) + h)[..Min(|es| + |h|, HistoryLimit)]
    decreases es
  {
    if es == [] {
      assert Reversed(es) + h == h;
    } else {
      var e, rest := es[0], es[1..];
      var p := PushRecent(h, e);
      RecordAllKeepsMostRecent(p, rest);
      var m := Min(|h| + 1, HistoryLimit);
      var n := Min(|rest| + m, HistoryLimit);
      assert n == Min(|es| + |h|, HistoryLimit);
      assert p == ([e] + h)[..m];
      TakeOfTake(Reversed(rest), [e] + h, m, n);
      assert Reversed(es) + h == Reversed(rest) + ([e] + h);
    }
  }

  /**
   * After twenty or more saves exactly the twenty most recent entries remain,
   * most recent first, whatever the history held before.
   */
  lemma RecordManyKeepsTwenty(h: seq<HistoryEntry>, es: seq<HistoryEntry>)
    requires |es| >= HistoryLimit
    ensures |RecordAll(h, es)| == HistoryLimit
    ensures forall k :: 0 <= k < HistoryLimit ==> RecordAll(h, es)[k] == es[|es| - 1 - k]
  {
    var p, rest := PushRecent(h, es[0]), es[1..];
    RecordAllKeepsMostRecent(p, rest);
    assert RecordAll(h, es) == (Reversed(rest) + p)[..HistoryLimit];
    forall k | 0 <= k < HistoryLimit ensures RecordAll(h, es)[k] == es[|es| - 1 - k] {
      if k < |rest| {
        ReversedAt(rest, k);
      }
    }
  }

  /** The document `exportUserData` serialises (the date is passed in). */
  datatype ExportDoc = ExportDoc(history: seq<HistoryEntry>, coveredTopics: TopicCounts,
                                 preferences: Preferences, exportDate: string)

  /**
   * A parsed import document; a field is None when it is missing or falsy
   * (`undefined`, `null`, `0`, `""`, `false`).
   */
  datatype ImportDoc = ImportDoc(history: Option<seq<HistoryEntry>>,
                                 coveredTopics: Option<TopicCounts>,
                                 preferences: Option<Preferences>)

  function Exported(s: Store, date: string): ExportDoc {
    ExportDoc(HistoryOf(s), TopicsOf(s), PreferencesOf(s), date)
  }

  /**
   * What `JSON.parse` gives back for an exported document: every field is
   * present and truthy, since arrays and objects are truthy even when empty.
   */
  function Reparsed(d: ExportDoc): ImportDoc {
    ImportDoc(Some(d.history), Some(d.coveredTopics), Some(d.preferences))
  }

  /** `importUserData`'s validation; None stands for text that does not parse. */
  predicate Acceptable(parsed: Option<ImportDoc>) {
    parsed.Some? && parsed.value.history.Some? && parsed.value.coveredTopics.Some?
    && parsed.value.preferences.Some?
  }

  /** The store after a successful import: all three entries replaced. */
  function Imported(doc: ImportDoc): Store
    requires Acceptable(Some(doc))
  {
    Store(Stored(doc.history.value), Stored(doc.coveredTopics.value), Stored(doc.preferences.value))
  }

  /** A getter gives back the stored value, and the empty default for a missing or null entry. */
  lemma GettersDefault(s: Store)
    ensures HistoryOf(s) == (if s.history.Stored? then s.history.value else [])
    ensures TopicsOf(s) == (if s.topics.Stored? then s.topics.value else map[])
    ensures PreferencesOf(s) == (if s.preferences.Stored? then s.preferences.value else map[])
  {
  }

  /** Clearing and re-initialising gives exactly the default state. */
  lemma ClearedIsDefault()
    ensures Initialized(EmptyStore) == DefaultStore
  {
  }

  /** Initialising twice is the same as initialising once. */
  lemma InitializedIdempotent(s: Store)
    ensures Initialized(Initialized(s)) == Initialized(s)
  {
  }

  /** `getCoveredTopics` after `saveCoveredTopics(m)` returns m. */
  lemma SavedTopicsReadBack(s: Store, m: TopicCounts)
    ensures TopicsOf(s.(topics := Stored(m))) == m
  {
  }

  /**
   * `{...current, ...update}`: keys of the update take its values, and every
   * other existing preference is kept.
   */
  lemma PreferencesMerge(current: Preferences, update: Preferences)
    ensures (current + update).Keys == current.Keys + update.Keys
    ensures forall k :: k in update ==> (current + update)[k] == update[k]
    ensures forall k :: k in current && k !in update ==> (current + update)[k] == current[k]
  {
  }

  /**
   * Importing what was just exported succeeds and every getter then returns
   * what it returned before.
   */
  lemma ExportImportRoundTrip(s: Store, date: string)
    ensures Acceptable(Some(Reparsed(Exported(s, date))))
    ensures var t := Imported(Reparsed(Exported(s, date)));
      HistoryOf(t) == HistoryOf(s) && TopicsOf(t) == TopicsOf(s) && PreferencesOf(t) == PreferencesOf(s)
  {
  }

  /** The manager, with `local` standing for the browser storage it reads and writes. */
  class StorageManager {
    var local: Store

    /** A manager over the storage as the browser holds it; construction initialises it. */
    constructor (existing: Store)
      ensures local == Initialized(existing)
    {
      local := existing;
      new;
      InitializeStorage();
    }

    method InitializeStorage()
      modifies this
      ensures local == Initialized(old(local))
    {
      if local.history.Missing? {
        local := local.(history := Stored([]));
      }
      if local.topics.Missing? {
        local := local.(topics := Stored(map[]));
      }
      if local.preferences.Missing? {
        local := local.(preferences := Stored(DefaultPreferences()));
      }
    }

    method SaveQuizToHistory(entry: HistoryEntry)
      modifies this
      ensures local == old(local).(history := Stored(PushRecent(HistoryOf(old(local)), entry)))
    {
      var history := GetQuizHistory();
      history := [entry] + history;
      var limited := history[..Min(|history|, HistoryLimit)];
      local := local.(history := Stored(limited));
    }

    method GetQuizHistory() returns (h: seq<HistoryEntry>)
      ensures h == HistoryOf(local)
      ensures local.history.Stored? ==> h == local.history.value
      ensures !local.history.Stored? ==> h == []
    {
      h := Read(local.history, []);
    }

    method SaveCoveredTopics(topicMap: TopicCounts)
      modifies this
      ensures local == old(local).(topics := Stored(topicMap))
    {
      local := local.(topics := Stored(topicMap));
    }

    method GetCoveredTopics() returns (m: TopicCounts)
      ensures m == TopicsOf(local)
      ensures local.topics.Stored? ==> m == local.topics.value
      ensures !local.topics.Stored? ==> m == map[]
    {
      m := Read(local.topics, map[]);
    }

    method SaveUserPreferences(preferences: Preferences)
      modifies this
      ensures local == old(local).(preferences := Stored(PreferencesOf(old(local)) + preferences))
    {
      var current := GetUserPreferences();
      local := local.(preferences := Stored(current + preferences));
    }

    method GetUserPreferences() returns (p: Preferences)
      ensures p == PreferencesOf(local)
      ensures local.preferences.Stored? ==> p == local.preferences.value
      ensures !local.preferences.Stored? ==> p == map[]
    {
      p := Read(local.preferences, map[]);
    }

    method ClearAllData()
      modifies this
      ensures local == DefaultStore
    {
      local := EmptyStore;
      InitializeStorage();
    }

    /** `exportUserData`, with the export date passed in. */
    method ExportUserData(date: string) returns (doc: ExportDoc)
      ensures doc == Exported(local, date)
      ensures doc.history == HistoryOf(local) && doc.coveredTopics == TopicsOf(local)
      ensures doc.preferences == PreferencesOf(local) && doc.exportDate == date
    {
      var history := GetQuizHistory();
      var topics := GetCoveredTopics();
      var preferences := GetUserPreferences();
      doc := ExportDoc(history, topics, preferences, date);
    }

    /**
     * `importUserData`, given what `JSON.parse` made of the text (None when it
     * threw). Validation comes before any write: either all three entries are
     * replaced or none is.
     */
    method ImportUserData(parsed: Option<ImportDoc>) returns (ok: bool)
      modifies this
      ensures ok == Acceptable(parsed)
      ensures ok ==> local == Imported(parsed.value)
      ensures !ok ==> local == old(local)
    {
      if parsed.None? {
        return false;
      }
      var doc := parsed.value;
      if doc.history.None? || doc.coveredTopics.None? || doc.preferences.None? {
        return false;
      }
      local := local.(history := Stored(doc.history.value));
      local := local.(topics := Stored(doc.coveredTopics.value));
      local := local.(preferences := Stored(doc.preferences.value));
      return true;
    }
  }
}

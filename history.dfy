/** The prediction histories of the application shell: the global history shared through the
    history context (newest first, at most 50, near-duplicates within 2 s dropped) and the
    translate page's local history (newest first, at most 10, five shown). Time, the random
    part of entry ids and the captured image URL are parameters. */
module History {
  import opened Wrappers
  import Text
  import Backend

  const GlobalLimit: nat := 50
  const LocalLimit: nat := 10
  const LocalShown: nat := 5
  /** An entry younger than this can make a new one a duplicate. */
  const DuplicateWindowMs: int := 2000
  /** Confidences closer than this count as the same. */
  const ConfidenceTolerance: real := 0.01

  datatype HistoryEntry = HistoryEntry(
    id: real,
    prediction: string,
    confidence: Option<real>,
    timestamp: int,
    imageUrl: Option<string>,
    language: string,
    source: string)

  /** `result.dataset || language?.toUpperCase() || 'UNKNOWN'`. */
  function LanguageLabel(dataset: string, selected: Option<string>): (tag: string)
    ensures dataset != "" ==> tag == dataset
    ensures dataset == "" && selected.Some? && selected.value != "" ==> tag == Text.Upper(selected.value)
    ensures dataset == "" && (selected.None? || selected.value == "") ==> tag == "UNKNOWN"
    ensures tag != ""
  {
    if dataset != "" then dataset
    else if selected.Some? && Text.Upper(selected.value) != "" then Text.Upper(selected.value)
    else "UNKNOWN"
  }

  function Abs(x: real): real
  {
    if x < 0.0 then -x else x
  }

  /** `Math.abs(a - b) < 0.01`; an absent confidence compares as NaN, which is never close. */
  predicate Close(a: Option<real>, b: Option<real>)
  {
    a.Some? && b.Some? && Abs(a.value - b.value) < ConfidenceTolerance
  }

  predicate SameAs(earlier: HistoryEntry, e: HistoryEntry, now: int)
  {
    now - earlier.timestamp < DuplicateWindowMs
    && earlier.prediction == e.prediction
    && earlier.language == e.language
    && Close(earlier.confidence, e.confidence)
  }

  predicate IsDuplicate(prev: seq<HistoryEntry>, e: HistoryEntry, now: int)
  {
    exists k :: 0 <= k < |prev| && SameAs(prev[k], e, now)
  }

  function Min(a: int, b: int): int
  {
    if a < b then a else b
  }

  /** The updater passed to `setGlobalHistory`: a near-duplicate of a recent entry leaves the
      list as it is; otherwise the new entry goes first and the list is cut to 50. */
  function Admit(prev: seq<HistoryEntry>, e: HistoryEntry, now: int): (next: seq<HistoryEntry>)
    ensures IsDuplicate(prev, e, now) ==> next == prev
    ensures !IsDuplicate(prev, e, now) ==>
      && |next| == Min(|prev| + 1, GlobalLimit)
      && next[0] == e
      && next[1..] == prev[..|next| - 1]
  {
    if IsDuplicate(prev, e, now) then prev
    else [e] + prev[..Min(|prev|, GlobalLimit - 1)]
  }

  /** `[newEntry, ...prev.slice(0, 9)]` */
  function PushLocal(prev: seq<HistoryEntry>, e: HistoryEntry): (next: seq<HistoryEntry>)
    ensures |next| == Min(|prev| + 1, LocalLimit)
    ensures next[0] == e && next[1..] == prev[..|next| - 1]
  {
    [e] + prev[..Min(|prev|, LocalLimit - 1)]
  }

  /** `localHistory.slice(0, 5)`: the entries the page lists. */
  function Shown(local: seq<HistoryEntry>): (shown: seq<HistoryEntry>)
    ensures |shown| == Min(|local|, LocalShown)
    ensures shown == local[..|shown|]
  {
    local[..Min(|local|, LocalShown)]
  }

  /** The entry `addToHistory` builds from a successful reply. */
  function NewEntry(result: Backend.Prediction, imageUrl: Option<string>, language: Option<string>,
                    source: string, now: int, id: real): HistoryEntry
  {
    HistoryEntry(id, result.prediction, result.confidence, now, imageUrl,
                 LanguageLabel(result.dataset, language), source)
  }

  /** Global-history operations, for stating properties of sequences of them. */
  datatype GlobalOp =
    | Add(result: Backend.Prediction, imageUrl: Option<string>, language: Option<string>, source: string, now: int, id: real)
    | ClearGlobal

  function Apply(h: seq<HistoryEntry>, op: GlobalOp): seq<HistoryEntry>
  {
    match op
    case Add(result, imageUrl, language, source, now, id) =>
      if result.success && result.prediction != "" then
        Admit(h, NewEntry(result, imageUrl, language, source, now, id), now)
      else h
    case ClearGlobal => []
  }

  function ApplyAll(h: seq<HistoryEntry>, ops: seq<GlobalOp>): seq<HistoryEntry>
    decreases |ops|
  {
    if |ops| == 0 then h else ApplyAll(Apply(h, ops[0]), ops[1..])
  }

  /** No sequence of additions and clears takes the global history above 50 entries. */
  lemma {:induction false} GlobalStaysBounded(h: seq<HistoryEntry>, ops: seq<GlobalOp>)
    requires |h| <= GlobalLimit
    ensures |ApplyAll(h, ops)| <= GlobalLimit
    decreases |ops|
  {
    if |ops| > 0 {
      GlobalStaysBounded(Apply(h, ops[0]), ops[1..]);
    }
  }

  /** A successful reply that is admitted, repeated less than 2 s later, is dropped the
      second time (when the reply carries a confidence). The check looks only at the letter,
      the language tag and the confidence, so the repeat is dropped whatever its image URL
      and source (an upload repeating a camera reading included). */
  lemma {:induction false} RepeatWithinWindowIsDropped(h: seq<HistoryEntry>, result: Backend.Prediction,
                                                       language: Option<string>, now: int, later: int, id1: real, id2: real,
                                                       url1: Option<string>, url2: Option<string>, source1: string, source2: string)
    requires result.success && result.prediction != "" && result.confidence.Some?
    requires now <= later < now + DuplicateWindowMs
    requires !IsDuplicate(h, NewEntry(result, url1, language, source1, now, id1), now)
    ensures var h1 := Apply(h, Add(result, url1, language, source1, now, id1));
      Apply(h1, Add(result, url2, language, source2, later, id2)) == h1
  {
    var e1 := NewEntry(result, url1, language, source1, now, id1);
    var e2 := NewEntry(result, url2, language, source2, later, id2);
    var h1 := Apply(h, Add(result, url1, language, source1, now, id1));
    assert h1[0] == e1;
    assert SameAs(h1[0], e2, later);
  }

  class HistoryStore {
    /** `globalHistory`, newest first */
    var entries: seq<HistoryEntry>

    ghost predicate Valid()
      reads this
    {
      |entries| <= GlobalLimit
    }

    constructor ()
      ensures Valid() && entries == []
    {
      entries := [];
    }

    /** `addToHistory(result, capturedImageUrl, language, source)` at time `now`; `id` is the
        random id the entry gets. */
    method AddToHistory(result: Backend.Prediction, imageUrl: Option<string>, language: Option<string>,
                        source: string, now: int, id: real)
      requires Valid()
      modifies this
      ensures Valid()
      ensures !(result.success && result.prediction != "") ==> entries == old(entries)
      ensures result.success && result.prediction != "" ==>
        entries == Admit(old(entries), NewEntry(result, imageUrl, language, source, now, id), now)
      ensures entries == Apply(old(entries), Add(result, imageUrl, language, source, now, id))
    {
      if result.success && result.prediction != "" {
        var newEntry := HistoryEntry(id, result.prediction, result.confidence, now, imageUrl,
                                     LanguageLabel(result.dataset, language), source);
        entries := Admit(entries, newEntry, now);
      }
    }

    /** `clearHistory` */
    method ClearHistory()
      requires Valid()
      modifies this
      ensures Valid() && entries == []
      ensures entries == Apply(old(entries), ClearGlobal)
    {
      entries := [];
    }
  }

  /** The translate page's prediction handling. */
  class TranslatePage {
    const store: HistoryStore
    var selectedLanguage: string
    var predictionResult: Option<Backend.Prediction>
    /** `localHistory`, newest first */
    var localHistory: seq<HistoryEntry>

    ghost predicate Valid()
      reads this, store
    {
      store.Valid() && |localHistory| <= LocalLimit
    }

    constructor (store: HistoryStore)
      requires store.Valid()
      ensures Valid() && this.store == store
      ensures selectedLanguage == "bisindo" && predictionResult == None && localHistory == []
    {
      this.store := store;
      selectedLanguage := "bisindo";
      predictionResult := None;
      localHistory := [];
    }

    /** `handlePrediction(result, capturedImageUrl, source)`: the reply is shown; a successful
        one goes to the global history and to the front of the local one. `now` and the two
        random ids stand for the clock and `Math.random`. */
    method HandlePrediction(result: Option<Backend.Prediction>, imageUrl: Option<string>, source: string,
                            now: int, globalId: real, localId: real)
      requires Valid()
      modifies this, store
      ensures Valid() && selectedLanguage == old(selectedLanguage)
      ensures predictionResult == result
      ensures !(result.Some? && result.value.success) ==>
        localHistory == old(localHistory) && store.entries == old(store.entries)
      ensures result.Some? && result.value.success ==>
        && store.entries == Apply(old(store.entries), Add(result.value, imageUrl, Some(selectedLanguage), source, now, globalId))
        && localHistory == PushLocal(old(localHistory), HistoryEntry(localId, result.value.prediction, result.value.confidence, now,
                                     imageUrl, if result.value.dataset != "" then result.value.dataset else Text.Upper(selectedLanguage), source))
    {
      predictionResult := result;
      if result.Some? && result.value.success {
        var r := result.value;
        store.AddToHistory(r, imageUrl, Some(selectedLanguage), source, now, globalId);
        var tag := if r.dataset != "" then r.dataset else Text.Upper(selectedLanguage);
        var newEntry := HistoryEntry(localId, r.prediction, r.confidence, now, imageUrl, tag, source);
        localHistory := PushLocal(localHistory, newEntry);
      }
    }
  }
}

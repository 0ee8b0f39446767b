/**
 * src/services/storageService.js: the profile, the current session's data and the
 * history of finished analyses, kept in named slots of the browser's local and
 * session storage. A slot holds the JSON text of a document, the empty text (which every
 * read treats as falsy, like an absent slot), or other text that does not parse (Corrupt);
 * the encoding itself is abstracted away.
 */
module StorageService {
  import opened Options
  import opened OrderedMaps
  import opened Lab

  const PROFILE_KEY := "userProfile"
  const HISTORY_KEY := "recentAnalysis"
  const CURRENT_KEY := "extractedText"
  const MAX_RECENT := 10
  const DEFAULT_TITLE := "Blood Test Results"

  /** `{ id, date, title, summary }` */
  datatype HistoryItem = HistoryItem(id: string, date: string, title: string, summary: string)

  /** What the upload step leaves for the current session: the text and the parsed results
      (None when the object has no `parsedResults`). */
  datatype SessionData = SessionData(extractedText: string, parsedResults: Option<Dict<LabResult>>)

  /** The documents the slots hold: two kinds of object and the history array. */
  datatype Doc = ProfileDoc(profile: Profile) | SessionDoc(data: SessionData) | HistoryDoc(items: seq<HistoryItem>)

  /** A slot's text: the encoding of a document, the empty text, or other text `JSON.parse`
      rejects. */
  datatype Stored = Json(doc: Doc) | EmptyText | Corrupt

  /** `!!storage.getItem(key)`: the slot holds non-empty text. */
  predicate Holds(slots: map<string, Stored>, key: string) {
    key in slots && !slots[key].EmptyText?
  }

  /** The argument of `saveUserProfile`: null or undefined, some other non-object, or an object. */
  datatype ProfileArg = Nullish | NotAnObject | ProfileObject(p: Profile)

  /** A finished analysis handed to `saveAnalysisToHistory`; "" stands for a missing or falsy
      field. */
  datatype Finished = Finished(title: string, summary: string)

  /** The history a slot holds as `[...history]` sees it: an absent or empty slot reads as
      `[]`; a corrupt slot or an object cannot be read or spread (None). */
  function HistoryIn(local: map<string, Stored>): (h: Option<seq<HistoryItem>>)
    ensures !Holds(local, HISTORY_KEY) ==> h == Some([])
    ensures h.Some? <==> !Holds(local, HISTORY_KEY) || (local[HISTORY_KEY].Json? && local[HISTORY_KEY].doc.HistoryDoc?)
    ensures h.Some? && Holds(local, HISTORY_KEY) ==> local[HISTORY_KEY] == Json(HistoryDoc(h.value))
  {
    if !Holds(local, HISTORY_KEY) then Some([])
    else match local[HISTORY_KEY]
      case Json(HistoryDoc(items)) => Some(items)
      case _ => None
  }

  /** `[item, ...history].slice(0, 10)`: the new item first, then the newest of the old items,
      at most ten in all. */
  function Pushed(item: HistoryItem, history: seq<HistoryItem>): (r: seq<HistoryItem>)
    ensures |r| == if |history| + 1 < MAX_RECENT then |history| + 1 else MAX_RECENT
    ensures r[0] == item
    ensures r[1..] == history[..|r| - 1]
  {
    var all := [item] + history;
    var r := all[..if |all| < MAX_RECENT then |all| else MAX_RECENT];
    assert r[1..] == all[1..|r|];
    assert all[1..] == history;
    r
  }

  /** The history after pushing each of items in turn. */
  function PushAll(items: seq<HistoryItem>, history: seq<HistoryItem>): seq<HistoryItem>
    decreases |items|
  {
    if items == [] then history else PushAll(items[1..], Pushed(items[0], history))
  }

  /** Pushing keeps the history bounded: it grows by one item per push up to ten. */
  lemma {:induction false} PushAllLength(items: seq<HistoryItem>, history: seq<HistoryItem>)
    requires |history| <= MAX_RECENT
    ensures |PushAll(items, history)| == if |history| + |items| < MAX_RECENT then |history| + |items| else MAX_RECENT
    decreases |items|
  {
    if items != [] {
      PushAllLength(items[1..], Pushed(items[0], history));
    }
  }

  /** The history starts with the pushed items, newest first; after ten pushes nothing older
      is left. */
  lemma {:induction false} PushAllNewestFirst(items: seq<HistoryItem>, history: seq<HistoryItem>)
    requires |history| <= MAX_RECENT
    ensures var r := PushAll(items, history);
      forall i :: 0 <= i < |items| && i < MAX_RECENT ==> i < |r| && r[i] == items[|items| - 1 - i]
    decreases |items|
  {
    if items != [] {
      var last := items[|items| - 1];
      var front := items[..|items| - 1];
      assert items == front + [last];
      PushAllSplit(front, last, history);
      PushAllLength(front, history);
      PushAllNewestFirst(front, history);
      var before := PushAll(front, history);
      var after := Pushed(last, before);
      forall i | 0 <= i < |items| && i < MAX_RECENT
        ensures i < |after| && after[i] == items[|items| - 1 - i]
      {
        if i > 0 {
          assert after[i] == after[1..][i - 1] == before[i - 1];
          assert items[|items| - 1 - i] == front[|front| - 1 - (i - 1)];
        }
      }
    }
  }

  /** Pushing a list and then one more item is pushing the longer list. */
  lemma {:induction false} PushAllSplit(front: seq<HistoryItem>, last: HistoryItem, history: seq<HistoryItem>)
    ensures PushAll(front + [last], history) == Pushed(last, PushAll(front, history))
    decreases |front|
  {
    if front == [] {
      assert [] + [last] == [last];
      assert [last][1..] == [];
    } else {
      assert (front + [last])[1..] == front[1..] + [last];
      PushAllSplit(front[1..], last, Pushed(front[0], history));
    }
  }

  /** localStorage and sessionStorage, slot by slot. */
  class Store {
    var local: map<string, Stored>
    var session: map<string, Stored>

    /** Both storages empty. */
    constructor()
      ensures local == map[] && session == map[]
    {
      local := map[];
      session := map[];
    }

    /** `getUserProfile`: the decoded profile slot; null when it is absent or does not parse. */
    function GetUserProfile(): (r: Option<Doc>)
      reads this
      ensures r.Some? <==> PROFILE_KEY in local && local[PROFILE_KEY].Json?
      ensures r.Some? ==> local[PROFILE_KEY] == Json(r.value)
    {
      if PROFILE_KEY in local && local[PROFILE_KEY].Json? then Some(local[PROFILE_KEY].doc) else None
    }

    /** `hasUserProfile`: whether the slot holds non-empty text, even text that does not
        parse. */
    function HasUserProfile(): (r: bool)
      reads this
      ensures r <==> PROFILE_KEY in local && local[PROFILE_KEY] != EmptyText
      ensures GetUserProfile().Some? ==> r
    {
      Holds(local, PROFILE_KEY)
    }

    /** `saveUserProfile`: refuses null and non-objects and changes nothing; otherwise stores
        the profile, which the next read gives back. */
    method SaveUserProfile(profile: ProfileArg) returns (ok: bool)
      modifies this
      ensures ok <==> profile.ProfileObject?
      ensures ok ==> local == old(local)[PROFILE_KEY := Json(ProfileDoc(profile.p))]
      ensures !ok ==> local == old(local)
      ensures session == old(session)
      ensures ok ==> GetUserProfile() == Some(ProfileDoc(profile.p)) && HasUserProfile()
    {
      if !profile.ProfileObject? {
        return false;
      }
      local := local[PROFILE_KEY := Json(ProfileDoc(profile.p))];
      ok := true;
    }

    /** `getCurrentAnalysis`: the decoded session slot; null when it is absent or does not
        parse. */
    function GetCurrentAnalysis(): (r: Option<Doc>)
      reads this
      ensures r.Some? <==> CURRENT_KEY in session && session[CURRENT_KEY].Json?
      ensures r.Some? ==> session[CURRENT_KEY] == Json(r.value)
    {
      if CURRENT_KEY in session && session[CURRENT_KEY].Json? then Some(session[CURRENT_KEY].doc) else None
    }

    /** `saveCurrentAnalysis`: refuses a falsy argument and changes nothing; otherwise stores
        the data, which the next read gives back. */
    method SaveCurrentAnalysis(data: Option<SessionData>) returns (ok: bool)
      modifies this
      ensures ok <==> data.Some?
      ensures ok ==> session == old(session)[CURRENT_KEY := Json(SessionDoc(data.value))]
      ensures !ok ==> session == old(session)
      ensures local == old(local)
      ensures ok ==> GetCurrentAnalysis() == Some(SessionDoc(data.value))
    {
      if data.None? {
        return false;
      }
      session := session[CURRENT_KEY := Json(SessionDoc(data.value))];
      ok := true;
    }

    /** `saveAnalysisToHistory`, with `Date.now()` and the ISO date passed in. It refuses an
        analysis without a summary, and fails when the stored history cannot be read or spread;
        either way nothing changes. Otherwise the new item, titled 'Blood Test Results' when the
        analysis has no title, goes first and the history keeps at most ten items. */
    method SaveAnalysisToHistory(analysis: Option<Finished>, id: string, date: string) returns (ok: bool)
      modifies this
      ensures ok <==> analysis.Some? && analysis.value.summary != "" && HistoryIn(old(local)).Some?
      ensures !ok ==> local == old(local)
      ensures session == old(session)
      ensures ok ==>
        var title := if analysis.value.title != "" then analysis.value.title else DEFAULT_TITLE;
        var item := HistoryItem(id, date, title, analysis.value.summary);
        local == old(local)[HISTORY_KEY := Json(HistoryDoc(Pushed(item, HistoryIn(old(local)).value)))]
    {
      if analysis.None? || analysis.value.summary == "" {
        return false;
      }
      var title := if analysis.value.title != "" then analysis.value.title else DEFAULT_TITLE;
      var item := HistoryItem(id, date, title, analysis.value.summary);
      var history: seq<HistoryItem>;
      if HISTORY_KEY !in local || local[HISTORY_KEY].EmptyText? {
        history := [];
      } else if local[HISTORY_KEY].Json? && local[HISTORY_KEY].doc.HistoryDoc? {
        history := local[HISTORY_KEY].doc.items;
      } else {
        return false;
      }
      var updated := [item] + history;
      updated := updated[..if |updated| < MAX_RECENT then |updated| else MAX_RECENT];
      local := local[HISTORY_KEY := Json(HistoryDoc(updated))];
      ok := true;
    }

    /** `getRecentAnalyses`: the decoded history slot, or an empty list when the slot is absent,
        empty or does not parse. */
    function GetRecentAnalyses(): (r: Doc)
      reads this
      ensures HISTORY_KEY !in local || !local[HISTORY_KEY].Json? ==> r == HistoryDoc([])
      ensures HistoryIn(local).Some? ==> r == HistoryDoc(HistoryIn(local).value)
    {
      if HISTORY_KEY in local && local[HISTORY_KEY].Json? then local[HISTORY_KEY].doc else HistoryDoc([])
    }

    /** `getAnalysisById`: the first history item with that id, or null when there is none or
        the slot is absent, does not parse, or holds no array. */
    method GetAnalysisById(id: string) returns (r: Option<HistoryItem>)
      ensures !(HISTORY_KEY in local && local[HISTORY_KEY].Json? && local[HISTORY_KEY].doc.HistoryDoc?) ==> r.None?
      ensures HISTORY_KEY in local && local[HISTORY_KEY].Json? && local[HISTORY_KEY].doc.HistoryDoc? ==>
        var h := local[HISTORY_KEY].doc.items;
        && (r.None? <==> forall i :: 0 <= i < |h| ==> h[i].id != id)
        && (r.Some? ==>
              exists i :: 0 <= i < |h| && h[i] == r.value && h[i].id == id && (forall j :: 0 <= j < i ==> h[j].id != id))
    {
      if HISTORY_KEY !in local || !local[HISTORY_KEY].Json? || !local[HISTORY_KEY].doc.HistoryDoc? {
        return None;
      }
      var h := local[HISTORY_KEY].doc.items;
      var i := 0;
      while i < |h|
        invariant 0 <= i <= |h|
        invariant forall j :: 0 <= j < i ==> h[j].id != id
      {
        if h[i].id == id {
          return Some(h[i]);
        }
        i := i + 1;
      }
      r := None;
    }

    /** `clearAllData`: removes the profile, the history and the session data and nothing else;
        afterwards there is no profile. */
    method ClearAllData() returns (ok: bool)
      modifies this
      ensures ok
      ensures local == old(local) - {PROFILE_KEY, HISTORY_KEY}
      ensures session == old(session) - {CURRENT_KEY}
      ensures !HasUserProfile() && GetUserProfile().None? && GetCurrentAnalysis().None?
      ensures GetRecentAnalyses() == HistoryDoc([])
    {
      local := local - {PROFILE_KEY};
      local := local - {HISTORY_KEY};
      session := session - {CURRENT_KEY};
      ok := true;
    }
  }
}

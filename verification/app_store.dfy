/**
 * The app's data store (providers/AppProvider.tsx): today's prayer checklist,
 * the journal and the tasbih history, held in memory and written through to the
 * device's key-value store after each change.
 *
 * The clock is a parameter: `today` is the ISO date of the call and ids and
 * timestamps are handed in. The outcome of each storage call is a parameter too.
 */
module AppStore {
  import opened KeyValue
  import opened NoorTypes
  import opened Seqs

  // ---------------------------------------------------------------------------
  // Today's prayers

  /** The id a generated prayer gets: the day, a dash, the prayer's table id. */
  function PrayerId(day: string, prayerId: string): string
  {
    day + "-" + prayerId
  }

  /** Distinct table ids give distinct prayer ids on the same day. */
  lemma PrayerIdInjective(day: string, a: string, b: string)
    ensures PrayerId(day, a) == PrayerId(day, b) ==> a == b
  {
    var n := |day| + 1;
    assert PrayerId(day, a)[n..] == a;
    assert PrayerId(day, b)[n..] == b;
  }

  /** A fresh checklist for `today`: one pending record per row of the prayer table. */
  function GenerateTodayPrayers(today: string): (r: seq<Prayer>)
    ensures |r| == |PrayerNames| == |PrayerTimes|
    ensures forall i :: 0 <= i < |r| ==>
      && r[i].id == PrayerId(today, PrayerNames[i].id)
      && r[i].name == PrayerNames[i].name
      && r[i].nameArabic == PrayerNames[i].nameArabic
      && r[i].status == Pending
      && r[i].time == PrayerTimes[i]
  {
    seq(|PrayerNames|, i requires 0 <= i < |PrayerNames| =>
      Prayer(PrayerId(today, PrayerNames[i].id), PrayerNames[i].name, PrayerNames[i].nameArabic, Pending, PrayerTimes[i]))
  }

  /** No two records of a generated checklist share an id. */
  lemma GeneratedIdsDistinct(today: string, i: int, j: int)
    requires 0 <= i < j < |PrayerNames|
    ensures GenerateTodayPrayers(today)[i].id != GenerateTodayPrayers(today)[j].id
  {
    assert PrayerNames[i].id[0] != PrayerNames[j].id[0];
    PrayerIdInjective(today, PrayerNames[i].id, PrayerNames[j].id);
  }

  /** A prayer counts towards the streak once prayed, on time or late. */
  predicate Prayed(p: Prayer)
  {
    p.status == OnTime || p.status == Late
  }

  /** The number of prayers of the list already prayed (getPrayerStreak). */
  function PrayerStreak(ps: seq<Prayer>): (n: nat)
    ensures n <= |ps|
  {
    |Filter(ps, Prayed)|
  }

  /** The streak lies between none and all of the list, and hits each end exactly when it should. */
  lemma StreakBounds(ps: seq<Prayer>)
    ensures 0 <= PrayerStreak(ps) <= |ps|
    ensures PrayerStreak(ps) == |ps| <==> forall i :: 0 <= i < |ps| ==> Prayed(ps[i])
    ensures PrayerStreak(ps) == 0 <==> forall i :: 0 <= i < |ps| ==> !Prayed(ps[i])
  {
    FilterKeepsAll(ps, Prayed);
    if forall i :: 0 <= i < |ps| ==> !Prayed(ps[i]) {
      forall x | x in ps ensures !Prayed(x) {
        var i :| 0 <= i < |ps| && ps[i] == x;
      }
      FilterDropsAll(ps, Prayed);
    }
    if PrayerStreak(ps) == 0 {
      forall i | 0 <= i < |ps| ensures !Prayed(ps[i]) {
        assert ps[i] in ps;
      }
    }
  }

  /** The streak of a concatenation is the sum of the parts' streaks. */
  lemma StreakAppend(a: seq<Prayer>, b: seq<Prayer>)
    ensures PrayerStreak(a + b) == PrayerStreak(a) + PrayerStreak(b)
  {
    FilterAppend(a, b, Prayed);
  }

  /** A freshly generated checklist has nothing prayed yet. */
  lemma GeneratedStreakZero(today: string)
    ensures PrayerStreak(GenerateTodayPrayers(today)) == 0
  {
    StreakBounds(GenerateTodayPrayers(today));
  }

  /** The list after `updatePrayerStatus(id, status)`: every record with that id gets the new status. */
  function WithStatus(ps: seq<Prayer>, id: string, status: PrayerStatus): (r: seq<Prayer>)
    ensures |r| == |ps|
    ensures forall i :: 0 <= i < |ps| ==> r[i].id == ps[i].id
  {
    seq(|ps|, i requires 0 <= i < |ps| => if ps[i].id == id then ps[i].(status := status) else ps[i])
  }

  /** The update touches the status of matching records only: length, order, ids, names and times stay. */
  lemma UpdateFrame(ps: seq<Prayer>, id: string, status: PrayerStatus)
    ensures |WithStatus(ps, id, status)| == |ps|
    ensures forall i :: 0 <= i < |ps| ==>
      var q := WithStatus(ps, id, status)[i];
      && q.id == ps[i].id && q.name == ps[i].name && q.nameArabic == ps[i].nameArabic && q.time == ps[i].time
      && q.status == (if ps[i].id == id then status else ps[i].status)
  {
  }

  /** An id that no record carries leaves the list exactly as it was. */
  lemma UpdateUnknownId(ps: seq<Prayer>, id: string, status: PrayerStatus)
    requires forall i :: 0 <= i < |ps| ==> ps[i].id != id
    ensures WithStatus(ps, id, status) == ps
  {
  }

  /** Two updates of the same id: the later status wins. */
  lemma UpdateLastWins(ps: seq<Prayer>, id: string, s1: PrayerStatus, s2: PrayerStatus)
    ensures WithStatus(WithStatus(ps, id, s1), id, s2) == WithStatus(ps, id, s2)
  {
  }

  /** The update distributes over a concatenation. */
  lemma UpdateAppend(a: seq<Prayer>, b: seq<Prayer>, id: string, status: PrayerStatus)
    ensures WithStatus(a + b, id, status) == WithStatus(a, id, status) + WithStatus(b, id, status)
  {
  }

  /** 1 for a prayed prayer, 0 otherwise. */
  function StreakWeight(p: Prayer): nat
  {
    if Prayed(p) then 1 else 0
  }

  /** Changing the status of the one record with the id moves the streak by that record's change alone. */
  lemma StreakAfterUpdate(ps: seq<Prayer>, k: int, status: PrayerStatus)
    requires 0 <= k < |ps|
    requires forall i :: 0 <= i < |ps| && i != k ==> ps[i].id != ps[k].id
    ensures PrayerStreak(WithStatus(ps, ps[k].id, status)) == PrayerStreak(ps) - StreakWeight(ps[k]) + (if status == OnTime || status == Late then 1 else 0)
  {
    var id := ps[k].id;
    var a, b := ps[..k], ps[k + 1..];
    assert ps == a + [ps[k]] + b;
    UpdateAppend(a + [ps[k]], b, id, status);
    UpdateAppend(a, [ps[k]], id, status);
    UpdateUnknownId(a, id, status);
    UpdateUnknownId(b, id, status);
    assert WithStatus([ps[k]], id, status) == [ps[k].(status := status)];
    StreakAppend(a + [ps[k]], b);
    StreakAppend(a, [ps[k]]);
    StreakAppend(a + [ps[k].(status := status)], b);
    StreakAppend(a, [ps[k].(status := status)]);
  }

  /** On a generated checklist the update of a table prayer's id changes that one record. */
  lemma UpdateGenerated(today: string, k: int, status: PrayerStatus)
    requires 0 <= k < |PrayerNames|
    ensures var ps := GenerateTodayPrayers(today);
      WithStatus(ps, PrayerId(today, PrayerNames[k].id), status) == ps[k := ps[k].(status := status)]
  {
    var ps := GenerateTodayPrayers(today);
    forall i | 0 <= i < |ps| && i != k ensures ps[i].id != ps[k].id {
      if i < k { GeneratedIdsDistinct(today, i, k); } else { GeneratedIdsDistinct(today, k, i); }
    }
  }

  /** The checklist a load settles on: the stored one if it is today's, a fresh one otherwise. */
  function LoadedPrayers(stored: Slot<DailyPrayers>, today: string): (r: seq<Prayer>)
    ensures stored.Present? && stored.value.date == today ==> r == stored.value.prayers
    ensures !(stored.Present? && stored.value.date == today) ==>
      |r| == |PrayerNames| && forall i :: 0 <= i < |r| ==> r[i].status == Pending
  {
    if stored.Present? && stored.value.date == today then stored.value.prayers
    else GenerateTodayPrayers(today)
  }

  /** Loading keeps the stored checklist verbatim if and only if it is dated today; otherwise the day starts pending. */
  lemma LoadKeepsOnlyToday(stored: Slot<DailyPrayers>, today: string)
    ensures stored.Present? && stored.value.date == today ==> LoadedPrayers(stored, today) == stored.value.prayers
    ensures !(stored.Present? && stored.value.date == today) ==>
      && |LoadedPrayers(stored, today)| == |PrayerNames|
      && (forall i :: 0 <= i < |PrayerNames| ==> LoadedPrayers(stored, today)[i].status == Pending)
      && PrayerStreak(LoadedPrayers(stored, today)) == 0
  {
    if !(stored.Present? && stored.value.date == today) {
      GeneratedStreakZero(today);
    }
  }

  /** Whether the load ends in its catch block: a failed read or any stored text that does not parse. */
  predicate LoadFails(readFails: bool, prayers: Slot<DailyPrayers>, journal: Slot<seq<JournalEntry>>, tasbih: Slot<seq<TasbihSession>>)
  {
    readFails || prayers.Corrupt? || journal.Corrupt? || tasbih.Corrupt?
  }

  // ---------------------------------------------------------------------------
  // Journal

  /** The entry `addJournalEntry` builds from what the caller supplied and the clock's values. */
  function NewJournalEntry(draft: JournalDraft, id: string, createdAt: string, updatedAt: string): (e: JournalEntry)
    ensures e.date == draft.date && e.content == draft.content && e.mood == draft.mood
    ensures e.id == id && e.createdAt == createdAt && e.updatedAt == updatedAt
  {
    JournalEntry(id, draft.date, draft.content, draft.mood, createdAt, updatedAt)
  }

  /** True if some entry carries the id. */
  predicate HasEntry(es: seq<JournalEntry>, id: string)
  {
    exists i :: 0 <= i < |es| && es[i].id == id
  }

  /** The list after `deleteJournalEntry(id)`: every entry with another id, in order. */
  function WithoutEntry(es: seq<JournalEntry>, id: string): (r: seq<JournalEntry>)
    ensures |r| <= |es|
    ensures forall e :: e in r ==> e.id != id
  {
    Filter(es, (e: JournalEntry) => e.id != id)
  }

  /** Deleting drops every entry with the id, keeps every other one, and shrinks the list exactly when the id was there. */
  lemma DeleteRemovesId(es: seq<JournalEntry>, id: string)
    ensures forall e :: e in WithoutEntry(es, id) ==> e.id != id && e in es
    ensures forall e :: e in es && e.id != id ==> e in WithoutEntry(es, id)
    ensures |WithoutEntry(es, id)| <= |es|
    ensures HasEntry(es, id) <==> |WithoutEntry(es, id)| < |es|
  {
    var keep := (e: JournalEntry) => e.id != id;
    FilterKeepsAll(es, keep);
    if HasEntry(es, id) {
      var i :| 0 <= i < |es| && es[i].id == id;
      assert es[i] in es && !keep(es[i]);
    } else {
      forall x | x in es ensures keep(x) {
        var i :| 0 <= i < |es| && es[i] == x;
      }
    }
  }

  /** Deleting an id no entry carries is a no-op. */
  lemma DeleteAbsent(es: seq<JournalEntry>, id: string)
    requires !HasEntry(es, id)
    ensures WithoutEntry(es, id) == es
  {
    DeleteRemovesId(es, id);
    FilterKeepsAll(es, (e: JournalEntry) => e.id != id);
  }

  /** Deleting from a concatenation deletes from each part and keeps the parts in order. */
  lemma DeleteAppend(a: seq<JournalEntry>, b: seq<JournalEntry>, id: string)
    ensures WithoutEntry(a + b, id) == WithoutEntry(a, id) + WithoutEntry(b, id)
  {
    FilterAppend(a, b, (e: JournalEntry) => e.id != id);
  }

  /** Deleting the id of the one entry that carries it removes exactly that entry and keeps the rest in order. */
  lemma DeleteUnique(before: seq<JournalEntry>, e: JournalEntry, after: seq<JournalEntry>)
    requires !HasEntry(before, e.id) && !HasEntry(after, e.id)
    ensures WithoutEntry(before + [e] + after, e.id) == before + after
  {
    DeleteAppend(before + [e], after, e.id);
    DeleteAppend(before, [e], e.id);
    DeleteAbsent(before, e.id);
    DeleteAbsent(after, e.id);
    assert WithoutEntry([e], e.id) == [];
  }

  /** Adding an entry with a new id and then deleting that id gives back the original list. */
  lemma DeleteUndoesAdd(e: JournalEntry, es: seq<JournalEntry>)
    requires !HasEntry(es, e.id)
    ensures WithoutEntry([e] + es, e.id) == es
  {
    DeleteUnique([], e, es);
    assert [] + [e] + es == [e] + es;
  }

  // ---------------------------------------------------------------------------
  // Tasbih

  /** The session `saveTasbihSession` builds from what the caller supplied and a clock-derived id. */
  function NewTasbihSession(draft: TasbihDraft, id: string): (s: TasbihSession)
    ensures s.id == id && s.presetId == draft.presetId && s.count == draft.count
    ensures s.target == draft.target && s.date == draft.date && s.completed == draft.completed
  {
    TasbihSession(id, draft.presetId, draft.count, draft.target, draft.date, draft.completed)
  }

  /** The sessions dated `day`, in order. */
  function SessionsOn(ss: seq<TasbihSession>, day: string): seq<TasbihSession>
  {
    Filter(ss, (s: TasbihSession) => s.date == day)
  }

  /** The sum of the sessions' counts. */
  function SumCounts(ss: seq<TasbihSession>): (total: int)
    ensures (forall i :: 0 <= i < |ss| ==> ss[i].count >= 0) ==> total >= 0
  {
    if ss == [] then 0 else ss[0].count + SumCounts(ss[1..])
  }

  lemma {:induction false} SumCountsAppend(a: seq<TasbihSession>, b: seq<TasbihSession>)
    ensures SumCounts(a + b) == SumCounts(a) + SumCounts(b)
    decreases |a|
  {
    if a == [] {
      assert a + b == b;
    } else {
      assert (a + b)[1..] == a[1..] + b;
      SumCountsAppend(a[1..], b);
    }
  }

  /** Today's dhikr total (getTodayTasbihCount): the counts of the sessions dated today, completed or not. */
  function TodayTasbihCount(ss: seq<TasbihSession>, today: string): (total: int)
    ensures (forall i :: 0 <= i < |ss| ==> ss[i].count >= 0) ==> total >= 0
  {
    var on := SessionsOn(ss, today);
    assert (forall i :: 0 <= i < |ss| ==> ss[i].count >= 0) ==> forall j :: 0 <= j < |on| ==> on[j].count >= 0 by {
      forall j | 0 <= j < |on| ensures on[j] in ss { assert on[j] in on; }
    }
    SumCounts(on)
  }

  /** Saving a session raises today's total by its count if it is dated today and leaves it alone otherwise. */
  lemma TodayCountPrepend(s: TasbihSession, ss: seq<TasbihSession>, today: string)
    ensures TodayTasbihCount([s] + ss, today) == TodayTasbihCount(ss, today) + (if s.date == today then s.count else 0)
  {
  }

  /** Today's total of two histories together is the sum of their totals. */
  lemma TodayCountAppend(a: seq<TasbihSession>, b: seq<TasbihSession>, today: string)
    ensures TodayTasbihCount(a + b, today) == TodayTasbihCount(a, today) + TodayTasbihCount(b, today)
  {
    FilterAppend(a, b, (x: TasbihSession) => x.date == today);
    SumCountsAppend(SessionsOn(a, today), SessionsOn(b, today));
  }

  /** Sessions of other days contribute nothing: with none dated today the total is 0. */
  lemma {:induction false} TodayCountBounds(ss: seq<TasbihSession>, today: string)
    ensures (forall i :: 0 <= i < |ss| ==> ss[i].date != today) ==> TodayTasbihCount(ss, today) == 0
    decreases |ss|
  {
    if ss != [] {
      assert ss == [ss[0]] + ss[1..];
      TodayCountPrepend(ss[0], ss[1..], today);
      TodayCountBounds(ss[1..], today);
    }
  }

  // ---------------------------------------------------------------------------
  // The store

  /** The provider's state and the three keys it persists (noor_prayers, noor_journal, noor_tasbih). */
  class AppData {
    var prayers: seq<Prayer>
    var journalEntries: seq<JournalEntry>
    var tasbihSessions: seq<TasbihSession>
    var isLoading: bool

    var storedPrayers: Slot<DailyPrayers>
    var storedJournal: Slot<seq<JournalEntry>>
    var storedTasbih: Slot<seq<TasbihSession>>

    /** A store on first render: empty lists, still loading, over what the device holds. */
    constructor (prayersBlob: Slot<DailyPrayers>, journalBlob: Slot<seq<JournalEntry>>, tasbihBlob: Slot<seq<TasbihSession>>)
      ensures prayers == [] && journalEntries == [] && tasbihSessions == [] && isLoading
      ensures storedPrayers == prayersBlob && storedJournal == journalBlob && storedTasbih == tasbihBlob
    {
      prayers, journalEntries, tasbihSessions, isLoading := [], [], [], true;
      storedPrayers, storedJournal, storedTasbih := prayersBlob, journalBlob, tasbihBlob;
    }

    /**
     * loadData: read the three keys; `readFails` is a rejected read. The blobs are
     * parsed in the order prayers, journal, tasbih; the first that does not parse
     * ends the load in its catch block, which regenerates the prayers and leaves
     * the lists not yet reached as they were. Loading ends either way.
     */
    method LoadData(today: string, readFails: bool)
      modifies this
      ensures !isLoading
      ensures prayers == if LoadFails(readFails, storedPrayers, storedJournal, storedTasbih)
                         then GenerateTodayPrayers(today) else LoadedPrayers(storedPrayers, today)
      ensures journalEntries == if !readFails && !storedPrayers.Corrupt? && storedJournal.Present?
                                then storedJournal.value else old(journalEntries)
      ensures tasbihSessions == if !LoadFails(readFails, storedPrayers, storedJournal, storedTasbih) && storedTasbih.Present?
                                then storedTasbih.value else old(tasbihSessions)
      ensures storedPrayers == old(storedPrayers) && storedJournal == old(storedJournal) && storedTasbih == old(storedTasbih)
    {
      if readFails || storedPrayers.Corrupt? {
        prayers := GenerateTodayPrayers(today);
      } else {
        prayers := LoadedPrayers(storedPrayers, today);
        if storedJournal.Corrupt? {
          prayers := GenerateTodayPrayers(today);
        } else {
          if storedJournal.Present? {
            journalEntries := storedJournal.value;
          }
          if storedTasbih.Corrupt? {
            prayers := GenerateTodayPrayers(today);
          } else if storedTasbih.Present? {
            tasbihSessions := storedTasbih.value;
          }
        }
      }
      isLoading := false;
    }

    /**
     * updatePrayerStatus: set the status of the records with the id and write
     * `{date: today, prayers}` through; `writeOk` says whether the write landed.
     * A later load on the same day gives back exactly the list in memory.
     */
    method UpdatePrayerStatus(id: string, status: PrayerStatus, today: string, writeOk: bool)
      modifies this
      ensures prayers == WithStatus(old(prayers), id, status)
      ensures storedPrayers == AfterWrite(old(storedPrayers), DailyPrayers(today, prayers), writeOk)
      ensures writeOk ==> LoadedPrayers(storedPrayers, today) == prayers
      ensures journalEntries == old(journalEntries) && tasbihSessions == old(tasbihSessions) && isLoading == old(isLoading)
      ensures storedJournal == old(storedJournal) && storedTasbih == old(storedTasbih)
    {
      var updated := WithStatus(prayers, id, status);
      storedPrayers := AfterWrite(storedPrayers, DailyPrayers(today, updated), writeOk);
      prayers := updated;
    }

    /** addJournalEntry: put the new entry first, shift the rest by one, and write the list through. No content check is made. */
    method AddJournalEntry(draft: JournalDraft, id: string, createdAt: string, updatedAt: string, writeOk: bool)
      modifies this
      ensures journalEntries == [NewJournalEntry(draft, id, createdAt, updatedAt)] + old(journalEntries)
      ensures |journalEntries| == |old(journalEntries)| + 1 && journalEntries[1..] == old(journalEntries)
      ensures storedJournal == AfterWrite(old(storedJournal), journalEntries, writeOk)
      ensures prayers == old(prayers) && tasbihSessions == old(tasbihSessions) && isLoading == old(isLoading)
      ensures storedPrayers == old(storedPrayers) && storedTasbih == old(storedTasbih)
    {
      var updated := [NewJournalEntry(draft, id, createdAt, updatedAt)] + journalEntries;
      storedJournal := AfterWrite(storedJournal, updated, writeOk);
      journalEntries := updated;
    }

    /** deleteJournalEntry: keep the entries with another id, in order, and write the list through. */
    method DeleteJournalEntry(id: string, writeOk: bool)
      modifies this
      ensures journalEntries == WithoutEntry(old(journalEntries), id)
      ensures storedJournal == AfterWrite(old(storedJournal), journalEntries, writeOk)
      ensures prayers == old(prayers) && tasbihSessions == old(tasbihSessions) && isLoading == old(isLoading)
      ensures storedPrayers == old(storedPrayers) && storedTasbih == old(storedTasbih)
    {
      var updated := WithoutEntry(journalEntries, id);
      storedJournal := AfterWrite(storedJournal, updated, writeOk);
      journalEntries := updated;
    }

    /** saveTasbihSession: put the new session first and write the history through. */
    method SaveTasbihSession(draft: TasbihDraft, id: string, writeOk: bool)
      modifies this
      ensures tasbihSessions == [NewTasbihSession(draft, id)] + old(tasbihSessions)
      ensures forall today ::
        (TodayTasbihCount(tasbihSessions, today) ==
         TodayTasbihCount(old(tasbihSessions), today) + (if draft.date == today then draft.count else 0))
      ensures storedTasbih == AfterWrite(old(storedTasbih), tasbihSessions, writeOk)
      ensures prayers == old(prayers) && journalEntries == old(journalEntries) && isLoading == old(isLoading)
      ensures storedPrayers == old(storedPrayers) && storedJournal == old(storedJournal)
    {
      var s := NewTasbihSession(draft, id);
      forall today: string ensures TodayTasbihCount([s] + tasbihSessions, today) ==
        TodayTasbihCount(tasbihSessions, today) + (if draft.date == today then draft.count else 0)
      {
        TodayCountPrepend(s, tasbihSessions, today);
      }
      var updated := [s] + tasbihSessions;
      storedTasbih := AfterWrite(storedTasbih, updated, writeOk);
      tasbihSessions := updated;
    }
  }

  /**
   * A status change whose write lands, followed by a load that succeeds on the
   * same day, keeps the changed list, unless another key holds unparseable text
   * and the load falls back to a fresh day.
   */
  method UpdateThenReload(a: AppData, id: string, status: PrayerStatus, today: string)
    modifies a
    ensures !a.storedJournal.Corrupt? && !a.storedTasbih.Corrupt? ==> a.prayers == WithStatus(old(a.prayers), id, status)
    ensures a.storedJournal.Corrupt? || a.storedTasbih.Corrupt? ==> a.prayers == GenerateTodayPrayers(today)
    ensures !a.isLoading
  {
    a.UpdatePrayerStatus(id, status, today, true);
    a.LoadData(today, false);
  }
}

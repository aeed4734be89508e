/**
 * The debounce id as the C struct actually stores it. `g_timeout_add`
 * returns a guint, the struct field that keeps it is a gint, and both
 * `update_status` and finalize test that field with `> 0` before handing it
 * back to `g_source_remove`. An id above G_MAXINT therefore reads as
 * negative and is never removed. The class in ActionBarWidget keeps the id
 * as the unsigned value it is; this module models the signed field.
 */
module TimeoutId {
  const G_MAXINT: int := 0x7FFF_FFFF
  const GUINT_LIMIT: int := 0x1_0000_0000

  /** The values a gint can hold. */
  predicate IsGint(v: int) {
    -G_MAXINT - 1 <= v <= G_MAXINT
  }

  /** A main-loop source id: a guint, and never 0. */
  predicate IsSourceId(id: nat) {
    0 < id < GUINT_LIMIT
  }

  /** The guint id assigned to the gint field: two's complement reinterpretation. */
  function StoredAsGint(id: nat): (v: int)
    requires id < GUINT_LIMIT
    ensures IsGint(v)
    ensures (id - v) % GUINT_LIMIT == 0
    ensures id <= G_MAXINT ==> v == id
    ensures v > 0 <==> 0 < id <= G_MAXINT
  {
    if id <= G_MAXINT then id else id - GUINT_LIMIT
  }

  /** The gint field passed back where `g_source_remove` expects a guint. */
  function AsGuint(v: int): (id: nat)
    requires IsGint(v)
    ensures id < GUINT_LIMIT && StoredAsGint(id) == v
  {
    if v < 0 then v + GUINT_LIMIT else v
  }

  /** The stored field and the set of sources the main loop still has attached. */
  datatype Bookkeeping = Bookkeeping(stored: int, pending: set<nat>)

  /** The field names the one pending source, and is 0 when none is pending. */
  ghost predicate Tracks(b: Bookkeeping) {
    && IsGint(b.stored)
    && (b.stored == 0 ==> b.pending == {})
    && (b.stored != 0 ==> b.pending == {AsGuint(b.stored)})
  }

  /**
   * `update_status` as written: the old source is removed only when the
   * field reads positive, then the new id is attached and stored as a gint.
   */
  function UpdateStatusAsWritten(b: Bookkeeping, newId: nat): (r: Bookkeeping)
    requires IsGint(b.stored) && IsSourceId(newId) && newId !in b.pending
    ensures IsGint(r.stored) && AsGuint(r.stored) == newId
    ensures newId in r.pending
    ensures forall id :: id in r.pending && id != newId ==> id in b.pending
    ensures b.stored > 0 && b.stored != newId ==> b.stored !in r.pending
    ensures b.stored <= 0 ==> b.pending <= r.pending
  {
    var removed := if b.stored > 0 then b.pending - {b.stored} else b.pending;
    Bookkeeping(StoredAsGint(newId), removed + {newId})
  }

  /** Finalize as written: the pending source is removed only when the field reads positive. */
  function FinalizeAsWritten(b: Bookkeeping): (r: Bookkeeping)
    requires IsGint(b.stored)
    ensures r.pending <= b.pending
    ensures b.stored > 0 ==> r.stored == 0 && b.stored !in r.pending
    ensures b.stored <= 0 ==> r == b
  {
    if b.stored > 0 then Bookkeeping(0, b.pending - {b.stored}) else b
  }

  /** While every id stays at or below G_MAXINT, the signed field keeps exactly one source pending. */
  lemma AsWrittenTracksBelowMaxint(b: Bookkeeping, newId: nat)
    requires Tracks(b) && b.stored >= 0
    requires 0 < newId <= G_MAXINT && newId !in b.pending
    ensures var r := UpdateStatusAsWritten(b, newId);
      Tracks(r) && r.stored > 0 && r.pending == {newId}
  {
  }

  /** Below G_MAXINT, finalize as written leaves nothing attached. */
  lemma AsWrittenFinalizeClearsBelowMaxint(b: Bookkeeping)
    requires Tracks(b) && b.stored >= 0
    ensures FinalizeAsWritten(b).pending == {}
  {
  }

  /** Two updates with ids past G_MAXINT leave both sources attached. */
  lemma SignedIdLeavesTwoPending()
    ensures var b1 := UpdateStatusAsWritten(Bookkeeping(0, {}), 0x8000_0000);
      && Tracks(b1) && b1.stored < 0
      && UpdateStatusAsWritten(b1, 0x8000_0001).pending == {0x8000_0000, 0x8000_0001}
  {
  }

  /** Finalize after an update with an id past G_MAXINT leaves that source attached. */
  lemma SignedIdSurvivesFinalize()
    ensures FinalizeAsWritten(UpdateStatusAsWritten(Bookkeeping(0, {}), 0x8000_0000)).pending == {0x8000_0000}
  {
  }
}

/**
 * Record selection of the phone book access server: collapsing a contact
 * cursor (rows sorted by contact id, one row per phone number) into one
 * entry per contact, picking the 1-based range of contacts a client asked
 * for, and building the call-log selection string.
 *
 * A cursor is the sequence of the values of the id column it is read by
 * (CONTACT_ID, or _ID when the cursor has no CONTACT_ID column).
 */
module PbapContacts {
  import opened Wrappers
  import opened JavaText

  /** The value `previousContactId` starts from before the first row. */
  const NO_PREVIOUS_ID: int := -1

  /** How a compose request fails. */
  datatype Failure =
    | InternalError            // returned as ResponseCodes.OBEX_HTTP_INTERNAL_ERROR
    | CursorIndexOutOfBounds   // the cursor read past its last row (an exception in the source)
    | NullPointer              // a null cursor was dereferenced (an exception in the source)

  /** The id row `i` is compared with: the previous row's, or the sentinel for the first row. */
  function PreviousId(ids: seq<int>, i: nat): int
    requires i < |ids|
  {
    if i == 0 then NO_PREVIOUS_ID else ids[i - 1]
  }

  /** Row `i` opens a new contact: its id differs from the one compared against. */
  predicate StartsRun(ids: seq<int>, i: nat)
    requires i < |ids|
  {
    ids[i] != PreviousId(ids, i)
  }

  /** The rows that open a contact, in increasing order: exactly the run starts. */
  function RunStarts(ids: seq<int>): (r: seq<nat>)
    ensures forall k :: 0 <= k < |r| ==> r[k] < |ids| && StartsRun(ids, r[k])
    ensures forall k, l :: 0 <= k < l < |r| ==> r[k] < r[l]
    ensures forall i :: 0 <= i < |ids| && StartsRun(ids, i) ==> i in r
  {
    if ids == [] then []
    else
      var n := |ids| - 1;
      RunStarts(ids[..n]) + (if StartsRun(ids, n) then [n] else [])
  }

  /** The contact ids with consecutive repeats collapsed: one per contact. */
  function RunIds(ids: seq<int>): (r: seq<int>)
    ensures |r| == |RunStarts(ids)|
    ensures forall k :: 0 <= k < |r| ==> r[k] == ids[RunStarts(ids)[k]]
  {
    if ids == [] then []
    else
      var n := |ids| - 1;
      RunIds(ids[..n]) + (if StartsRun(ids, n) then [ids[n]] else [])
  }

  function Max(a: int, b: int): int { if a < b then b else a }
  function Min(a: int, b: int): int { if a < b then a else b }

  /** The elements at 1-based positions `start`..`end` of `xs`, as far as `xs` reaches. */
  function Window<T>(xs: seq<T>, start: int, end: int): (r: seq<T>)
    ensures |r| == Max(0, Min(end, |xs|) - Max(start, 1) + 1)
    ensures forall j :: 0 <= j < |r| ==>
      start <= Max(start, 1) + j <= end && r[j] == xs[Max(start, 1) + j - 1]
  {
    var lo := if start < 1 then 0 else Min(start - 1, |xs|);
    var hi := if end < lo then lo else Min(end, |xs|);
    xs[lo..hi]
  }

  lemma WindowAppend<T>(xs: seq<T>, x: T, start: int, end: int)
    ensures Window(xs + [x], start, end)
         == Window(xs, start, end) + (if start <= |xs| + 1 <= end then [x] else [])
  {
    var a := Window(xs + [x], start, end);
    var b := Window(xs, start, end) + (if start <= |xs| + 1 <= end then [x] else []);
    assert |a| == |b|;
    forall j | 0 <= j < |a| ensures a[j] == b[j] {
    }
  }

  lemma WindowOfLongerPrefix<T>(xs: seq<T>, ys: seq<T>, start: int, end: int)
    requires xs <= ys && end <= |xs|
    ensures Window(xs, start, end) == Window(ys, start, end)
  {
  }

  /** Consecutive pages of a listing concatenate to the page that spans them both. */
  lemma WindowPages<T>(xs: seq<T>, start: int, mid: int, end: int)
    requires 1 <= start <= mid + 1 <= end + 1
    ensures Window(xs, start, mid) + Window(xs, mid + 1, end) == Window(xs, start, end)
  {
    var a := Window(xs, start, mid) + Window(xs, mid + 1, end);
    var b := Window(xs, start, end);
    assert |a| == |b|;
    forall j | 0 <= j < |a| ensures a[j] == b[j] {
      if j >= |Window(xs, start, mid)| {
        var w := Window(xs, mid + 1, end);
        assert a[j] == w[j - |Window(xs, start, mid)|];
      }
    }
  }

  lemma RunIdsStep(ids: seq<int>, i: nat)
    requires i < |ids|
    ensures RunIds(ids[..i + 1]) == RunIds(ids[..i]) + (if StartsRun(ids, i) then [ids[i]] else [])
  {
    assert ids[..i + 1][..i] == ids[..i];
  }

  lemma {:induction false} RunIdsOfPrefix(ids: seq<int>, i: nat)
    requires i <= |ids|
    ensures RunIds(ids[..i]) <= RunIds(ids)
    decreases |ids| - i
  {
    if i < |ids| {
      RunIdsOfPrefix(ids, i + 1);
      RunIdsStep(ids, i);
    } else {
      assert ids[..i] == ids;
    }
  }

  /**
   * `ContactCursorFilter.filterByRange`: the ids of the `startPoint`-th through
   * `endPoint`-th contacts (1-based), in cursor order.
   */
  method FilterByRange(ids: seq<int>, startPoint: int, endPoint: int) returns (r: seq<int>)
    ensures r == Window(RunIds(ids), startPoint, endPoint)
    ensures startPoint <= endPoint ==> |r| <= endPoint - startPoint + 1
  {
    var previousContactId := NO_PREVIOUS_ID;
    var currentOffset := 1;
    r := [];
    var i := 0;
    while i < |ids| && currentOffset <= endPoint
      invariant 0 <= i <= |ids|
      invariant i < |ids| ==> previousContactId == PreviousId(ids, i)
      invariant currentOffset == |RunIds(ids[..i])| + 1
      invariant r == Window(RunIds(ids[..i]), startPoint, endPoint)
    {
      var currentContactId := ids[i];
      RunIdsStep(ids, i);
      WindowAppend(RunIds(ids[..i]), currentContactId, startPoint, endPoint);
      if previousContactId != currentContactId {
        previousContactId := currentContactId;
        if currentOffset >= startPoint {
          r := r + [currentContactId];
        }
        currentOffset := currentOffset + 1;
      }
      i := i + 1;
    }
    RunIdsOfPrefix(ids, i);
    if i < |ids| {
      WindowOfLongerPrefix(RunIds(ids[..i]), RunIds(ids), startPoint, endPoint);
    } else {
      assert ids[..i] == ids;
    }
  }

  /** `ContactCursorFilter.filterByOffset`: the id of the `offset`-th contact, if there is one. */
  method FilterByOffset(ids: seq<int>, offset: int) returns (r: seq<int>)
    ensures r == (if 1 <= offset <= |RunIds(ids)| then [RunIds(ids)[offset - 1]] else [])
  {
    r := FilterByRange(ids, offset, offset);
  }

  /** `getDistinctContactIdSize`: the number of contacts in a cursor sorted by contact id. */
  method DistinctContactIdSize(ids: seq<int>) returns (count: nat)
    ensures count == |RunIds(ids)|
  {
    var previousContactId := NO_PREVIOUS_ID;
    count := 0;
    var i := 0;
    while i < |ids|
      invariant 0 <= i <= |ids|
      invariant i < |ids| ==> previousContactId == PreviousId(ids, i)
      invariant count == |RunIds(ids[..i])|
    {
      RunIdsStep(ids, i);
      var contactId := ids[i];
      if previousContactId != contactId {
        count := count + 1;
        previousContactId := contactId;
      }
      i := i + 1;
    }
    assert ids[..i] == ids;
  }

  /** `getContactsSize`: the contacts plus the owner card 0.vcf; 0 when the query gave no cursor. */
  method ContactsSize(cursor: Option<seq<int>>) returns (size: nat)
    ensures cursor.None? ==> size == 0
    ensures cursor.Some? ==> size == |RunIds(cursor.value)| + 1
  {
    if cursor.None? {
      return 0;
    }
    var distinct := DistinctContactIdSize(cursor.value);
    size := distinct + 1;
  }

  predicate NonDecreasing(ids: seq<int>) {
    forall i, j :: 0 <= i < j < |ids| ==> ids[i] <= ids[j]
  }

  predicate StrictlyIncreasing(xs: seq<int>) {
    forall i, j :: 0 <= i < j < |xs| ==> xs[i] < xs[j]
  }

  lemma {:induction false} StrictlyIncreasingElementsDistinct(xs: seq<int>)
    requires StrictlyIncreasing(xs)
    ensures |set x | x in xs| == |xs|
  {
    if xs != [] {
      var n := |xs| - 1;
      StrictlyIncreasingElementsDistinct(xs[..n]);
      assert (set x | x in xs) == (set x | x in xs[..n]) + {xs[n]};
      assert xs[n] !in (set x | x in xs[..n]);
    }
  }

  /** Every id except the sentinel opens a contact somewhere; every collapsed id is a row's id. */
  lemma RunIdsElements(ids: seq<int>)
    ensures forall x :: x in RunIds(ids) ==> x in ids
    ensures forall x :: x in ids && x != NO_PREVIOUS_ID ==> x in RunIds(ids)
  {
  }

  /**
   * For a cursor sorted by contact id (as the source assumes) with real ids,
   * the distinct count is the number of different contacts.
   */
  lemma DistinctCountOfSortedCursor(ids: seq<int>)
    requires NonDecreasing(ids)
    requires forall i :: 0 <= i < |ids| ==> ids[i] >= 0
    ensures |RunIds(ids)| == |set x | x in ids|
  {
    var r := RunIds(ids);
    var starts := RunStarts(ids);
    forall k, l | 0 <= k < l < |r| ensures r[k] < r[l] {
      assert starts[k] < starts[l];
      assert StartsRun(ids, starts[l]) && starts[l] > 0;
      assert ids[starts[k]] <= ids[starts[l] - 1];
    }
    StrictlyIncreasingElementsDistinct(r);
    RunIdsElements(ids);
    assert (set x | x in r) == (set x | x in ids);
  }

  /** A display name as the source uses it: an empty or missing one becomes the default. */
  function DisplayNameOr(name: Option<string>, defaultName: string): string
  {
    if name.None? || name.value == [] then defaultName else name.value
  }

  /** A cursor row carrying the contact id and the display name (None for a null value or a missing column). */
  datatype ContactRow = ContactRow(contactId: int, displayName: Option<string>)

  function ContactIds(rows: seq<ContactRow>): (r: seq<int>)
    ensures |r| == |rows| && forall i :: 0 <= i < |rows| ==> r[i] == rows[i].contactId
  {
    seq(|rows|, i requires 0 <= i < |rows| => rows[i].contactId)
  }

  /** The "display_name,contact_id" entry of one row. */
  function NameIdEntry(row: ContactRow, defaultName: string): string
  {
    DisplayNameOr(row.displayName, defaultName) + "," + LongToString(row.contactId)
  }

  /** One entry per contact, built from the contact's first row. */
  function NameIdEntries(rows: seq<ContactRow>, defaultName: string): (r: seq<string>)
    ensures |r| == |RunIds(ContactIds(rows))|
    ensures forall k :: 0 <= k < |r| ==>
      r[k] == NameIdEntry(rows[RunStarts(ContactIds(rows))[k]], defaultName)
  {
    if rows == [] then []
    else
      var n := |rows| - 1;
      assert ContactIds(rows[..n]) == ContactIds(rows)[..n];
      NameIdEntries(rows[..n], defaultName)
        + (if StartsRun(ContactIds(rows), n) then [NameIdEntry(rows[n], defaultName)] else [])
  }

  lemma NameIdEntriesStep(rows: seq<ContactRow>, i: nat, defaultName: string)
    requires i < |rows|
    ensures NameIdEntries(rows[..i + 1], defaultName)
      == NameIdEntries(rows[..i], defaultName)
         + (if StartsRun(ContactIds(rows), i) then [NameIdEntry(rows[i], defaultName)] else [])
  {
    assert rows[..i + 1][..i] == rows[..i];
    assert ContactIds(rows[..i + 1]) == ContactIds(rows)[..i + 1];
  }

  /** The caller's `ArrayList<String>`, which the source appends to in place. */
  class StringList {
    var elems: seq<string>

    constructor (initial: seq<string>)
      ensures elems == initial
    {
      elems := initial;
    }
  }

  /**
   * `appendDistinctNameIdList`: appends one "name,id" entry per contact to the
   * caller's list and leaves the entries already there untouched.
   */
  method AppendDistinctNameIdList(resultList: StringList, defaultName: string, rows: seq<ContactRow>)
    modifies resultList
    ensures resultList.elems == old(resultList.elems) + NameIdEntries(rows, defaultName)
  {
    var previousContactId := NO_PREVIOUS_ID;
    var i := 0;
    while i < |rows|
      invariant 0 <= i <= |rows|
      invariant i < |rows| ==> previousContactId == PreviousId(ContactIds(rows), i)
      invariant resultList.elems == old(resultList.elems) + NameIdEntries(rows[..i], defaultName)
    {
      NameIdEntriesStep(rows, i, defaultName);
      var contactId := rows[i].contactId;
      var displayName := DisplayNameOr(rows[i].displayName, defaultName);
      if previousContactId != contactId {
        previousContactId := contactId;
        resultList.elems := resultList.elems + [displayName + "," + LongToString(contactId)];
      }
      i := i + 1;
    }
    assert rows[..i] == rows;
  }

  /** `startPoint < 1 || startPoint > endPoint`: the range check of every compose entry point. */
  predicate BadRange(startPoint: int, endPoint: int) {
    startPoint < 1 || startPoint > endPoint
  }

  /** `composeAndSendPhonebookVcards` up to the composer: the contact ids that are sent. */
  method ComposeAndSendPhonebookVcards(ids: seq<int>, startPoint: int, endPoint: int)
    returns (r: Result<seq<int>, Failure>)
    ensures r.Err? <==> BadRange(startPoint, endPoint)
    ensures r.Err? ==> r.error == InternalError
    ensures r.Ok? ==>
      r.value == Window(RunIds(ids), startPoint, endPoint) && |r.value| <= endPoint - startPoint + 1
  {
    if startPoint < 1 || startPoint > endPoint {
      return Err(InternalError);
    }
    var contactIds := FilterByRange(ids, startPoint, endPoint);
    r := Ok(contactIds);
  }

  /** `BluetoothPbapObexServer.ORDER_BY_*`: the order the listing query sorts by. */
  datatype ListOrder = OrderByIndexed | OrderByAlphabetical | OrderByOther(code: int)

  /**
   * `composeAndSendPhonebookOneVcard` up to the composer: the id of the
   * `offset`-th contact of the cursor the order selects (an unknown order sends nothing).
   * A null cursor from the indexed or alphabetical query reaches `filterByRange`,
   * which dereferences it.
   */
  method ComposeAndSendPhonebookOneVcard(cursor: Option<seq<int>>, offset: int, order: ListOrder)
    returns (r: Result<seq<int>, Failure>)
    ensures r.Err? <==> offset < 1 || (cursor.None? && !order.OrderByOther?)
    ensures offset < 1 ==> r == Err(InternalError)
    ensures 1 <= offset && cursor.None? && !order.OrderByOther? ==> r == Err(NullPointer)
    ensures r.Ok? && order.OrderByOther? ==> r.value == []
    ensures r.Ok? && !order.OrderByOther? ==> cursor.Some?
    ensures r.Ok? && !order.OrderByOther? && cursor.Some? ==>
      r.value == (if offset <= |RunIds(cursor.value)| then [RunIds(cursor.value)[offset - 1]] else [])
  {
    if offset < 1 {
      return Err(InternalError);
    }
    var contactIds: seq<int> := [];
    if order.OrderByIndexed? || order.OrderByAlphabetical? {
      if cursor.None? {
        return Err(NullPointer);
      }
      contactIds := FilterByOffset(cursor.value, offset);
    }
    r := Ok(contactIds);
  }

  /**
   * `composeAndSendSIMPhonebookVcards` up to the composer: the 0-based SIM
   * cursor positions it reads, `startPoint - 1` through `endPoint - 1`.
   */
  function SimPhonebookPositions(startPoint: int, endPoint: int): (r: Result<seq<nat>, Failure>)
    ensures r.Err? <==> BadRange(startPoint, endPoint)
    ensures r.Err? ==> r.error == InternalError
    ensures r.Ok? ==> |r.value| == endPoint - startPoint + 1
    ensures r.Ok? ==> forall k :: 0 <= k < |r.value| ==> r.value[k] + 1 == startPoint + k
  {
    if startPoint < 1 || startPoint > endPoint then Err(InternalError)
    else Ok(seq(endPoint - startPoint + 1, k requires 0 <= k < endPoint - startPoint + 1 => startPoint - 1 + k))
  }

  /** A move of the SIM composer's cursor: the 0-based position, and whether the rows are sorted by name. */
  datatype SimMove = SimMove(position: nat, alphabetical: bool)

  /**
   * `composeAndSendSIMPhonebookOneVcard` up to the composer: the move it makes
   * before reading, to `offset - 1` sorted by index or by name; an unknown
   * order makes no move.
   */
  function SimPhonebookOnePosition(offset: int, order: ListOrder): (r: Result<Option<SimMove>, Failure>)
    ensures r.Err? <==> offset < 1
    ensures r.Err? ==> r.error == InternalError
    ensures r.Ok? ==> (r.value.None? <==> order.OrderByOther?)
    ensures r.Ok? && r.value.Some? ==>
      r.value.value.position + 1 == offset && (r.value.value.alphabetical <==> order.OrderByAlphabetical?)
  {
    if offset < 1 then Err(InternalError)
    else
      match order
      case OrderByIndexed => Ok(Some(SimMove(offset - 1, false)))
      case OrderByAlphabetical => Ok(Some(SimMove(offset - 1, true)))
      case OrderByOther(_) => Ok(None)
  }

  /** `CallLog.Calls._ID` */
  const CALLS_ID: string := "_id"

  /** The record part of the call-log selection, for the ids at the two end positions. */
  function RecordSelection(startPoint: int, endPoint: int, startPointId: int, endPointId: int): string
  {
    if startPoint == endPoint then CALLS_ID + "=" + LongToString(startPointId)
    else CALLS_ID + ">=" + LongToString(endPointId) + " AND " + CALLS_ID + "<=" + LongToString(startPointId)
  }

  /** The record selection wrapped with the type selection, when there is one. */
  function CombinedSelection(typeSelection: Option<string>, recordSelection: string): (r: string)
    ensures typeSelection.None? ==> r == recordSelection
    ensures typeSelection.Some? ==>
      && StartsWith(r, "(" + typeSelection.value + ") AND (") && EndsWith(r, recordSelection + ")")
      && |r| == |typeSelection.value| + |recordSelection| + 9
  {
    if typeSelection.None? then recordSelection
    else "(" + typeSelection.value + ") AND (" + recordSelection + ")"
  }

  /**
   * `composeAndSendCallLogVcards` up to the composer: the selection string.
   * `calls` is the call-log cursor sorted by _id descending (None when the
   * query gave no cursor, which leaves both ids 0); reading a position past its
   * end is the cursor's index exception.
   */
  function CallLogSelection(typeSelection: Option<string>, calls: Option<seq<int>>,
                            startPoint: int, endPoint: int): (r: Result<string, Failure>)
    ensures r == Err(InternalError) <==> BadRange(startPoint, endPoint)
    ensures r == Err(CursorIndexOutOfBounds) <==>
      !BadRange(startPoint, endPoint) && calls.Some? && endPoint > |calls.value|
    ensures r.Ok? && calls.Some? ==>
      r.value == CombinedSelection(typeSelection,
        RecordSelection(startPoint, endPoint, calls.value[startPoint - 1], calls.value[endPoint - 1]))
    ensures !BadRange(startPoint, endPoint) && calls.None? ==>
      r == Ok(CombinedSelection(typeSelection, RecordSelection(startPoint, endPoint, 0, 0)))
  {
    if startPoint < 1 || startPoint > endPoint then Err(InternalError)
    else if calls.Some? && endPoint > |calls.value| then Err(CursorIndexOutOfBounds)
    else
      var startPointId := if calls.Some? then calls.value[startPoint - 1] else 0;
      var endPointId := if startPoint == endPoint then startPointId
                        else if calls.Some? then calls.value[endPoint - 1] else 0;
      Ok(CombinedSelection(typeSelection, RecordSelection(startPoint, endPoint, startPointId, endPointId)))
  }

  /**
   * The record selection names the ids it is given, as `Long.parseLong` reads
   * them back: `_id=` and the id at `startPoint` for one record, otherwise
   * `_id>=` the id at `endPoint`, then ` AND _id<=` and the id at `startPoint`.
   */
  lemma RecordSelectionNamesIds(startPoint: int, endPoint: int, startPointId: int, endPointId: int)
    ensures var r := RecordSelection(startPoint, endPoint, startPointId, endPointId);
      startPoint == endPoint ==>
        && |r| > 4 && r[..4] == CALLS_ID + "="
        && IsLongText(r[4..]) && LongValue(r[4..]) == startPointId
    ensures var r := RecordSelection(startPoint, endPoint, startPointId, endPointId);
      var k := 5 + |LongToString(endPointId)|;
      startPoint != endPoint ==>
        && |r| > k + 10 && r[..5] == CALLS_ID + ">=" && r[k..k + 10] == " AND " + CALLS_ID + "<="
        && IsLongText(r[5..k]) && LongValue(r[5..k]) == endPointId
        && IsLongText(r[k + 10..]) && LongValue(r[k + 10..]) == startPointId
  {
    var r := RecordSelection(startPoint, endPoint, startPointId, endPointId);
    var hi := LongToString(startPointId);
    LongRoundTrip(startPointId);
    if startPoint == endPoint {
      assert r == CALLS_ID + "=" + hi;
      assert r[4..] == hi;
    } else {
      var lo := LongToString(endPointId);
      var k := 5 + |lo|;
      LongRoundTrip(endPointId);
      assert r == CALLS_ID + ">=" + lo + " AND " + CALLS_ID + "<=" + hi;
      assert r[5..k] == lo;
      assert r[k + 10..] == hi;
    }
  }

  predicate StrictlyDecreasing(xs: seq<int>) {
    forall i, j :: 0 <= i < j < |xs| ==> xs[i] > xs[j]
  }

  /**
   * On a call log listed by _id descending, the id interval the record
   * selection names, from the id at `endPoint` up to the id at `startPoint`,
   * holds exactly the calls at positions `startPoint`..`endPoint`.
   */
  lemma RecordSelectionSelectsWindow(calls: seq<int>, startPoint: int, endPoint: int, j: int)
    requires StrictlyDecreasing(calls)
    requires 1 <= startPoint <= endPoint <= |calls|
    requires 0 <= j < |calls|
    ensures calls[endPoint - 1] <= calls[j] <= calls[startPoint - 1]
        <==> startPoint <= j + 1 <= endPoint
  {
    if j + 1 < startPoint {
      assert calls[j] > calls[startPoint - 1];
    } else if j + 1 > endPoint {
      assert calls[endPoint - 1] > calls[j];
    }
  }
}

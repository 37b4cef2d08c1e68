/** The admin panel's moderation state: the `status` column of `cars` and
    of `buyer_inquiries`, keyed by row id, with the dashboard's "pending"
    and "new" counts and the buttons that overwrite a status. */
module Moderation {
  import opened Schema

  /** `buyer_inquiries.status` once "Mark as Contacted" was pressed. */
  const Contacted: string := "contacted"

  /** A status column: row id to its value, `None` for NULL. */
  type StatusTable = map<int, Option<string>>

  /** `status IS NULL OR status NOT IN ('approved', 'rejected')`. */
  predicate IsPending(s: Option<string>) {
    s.None? || (s.value != Approved && s.value != Rejected)
  }

  /** `status IS NULL OR status != 'contacted'`. */
  predicate IsNew(s: Option<string>) {
    s.None? || s.value != Contacted
  }

  /** The cars the dashboard counts as pending and the Car Listings
      section lists. */
  function Pending(t: StatusTable): (ids: set<int>)
    ensures forall id :: id in ids <==> id in t && IsPending(t[id])
  {
    set id | id in t && IsPending(t[id])
  }

  /** The inquiries the dashboard counts as new. */
  function NewInquiries(t: StatusTable): (ids: set<int>)
    ensures forall id :: id in ids <==> id in t && IsNew(t[id])
  {
    set id | id in t && IsNew(t[id])
  }

  /** `UPDATE ... SET status = s WHERE id = ?`: the row with that id gets
      the status, every other row keeps its own, and an id with no row
      changes nothing. */
  function SetStatus(t: StatusTable, id: int, s: string): (u: StatusTable)
    ensures u.Keys == t.Keys
    ensures id in t ==> u[id] == Some(s)
    ensures forall k :: k in t && k != id ==> u[k] == t[k]
  {
    if id in t then t[id := Some(s)] else t
  }

  /** Approving or rejecting a car takes it, and only it, off the pending
      set, so the pending count drops by one when it was pending. */
  lemma ModerationSettles(t: StatusTable, id: int, s: string)
    requires s == Approved || s == Rejected
    ensures Pending(SetStatus(t, id, s)) == Pending(t) - {id}
    ensures id in Pending(t) ==> |Pending(SetStatus(t, id, s))| == |Pending(t)| - 1
  {
    var u := SetStatus(t, id, s);
    assert Pending(u) == Pending(t) - {id};
  }

  /** Marking an inquiry contacted takes it, and only it, off the new set. */
  lemma ContactedSettles(t: StatusTable, id: int)
    ensures NewInquiries(SetStatus(t, id, Contacted)) == NewInquiries(t) - {id}
    ensures id in NewInquiries(t) ==> |NewInquiries(SetStatus(t, id, Contacted))| == |NewInquiries(t)| - 1
  {
    var u := SetStatus(t, id, Contacted);
    assert NewInquiries(u) == NewInquiries(t) - {id};
  }

  /** Pressing the same button twice leaves what pressing it once left:
      re-approving keeps 'approved'. */
  lemma SetStatusIdempotent(t: StatusTable, id: int, s: string)
    ensures SetStatus(SetStatus(t, id, s), id, s) == SetStatus(t, id, s)
  {
  }

  /** The `UPDATE` overwrites the status, it does not merge: of two
      updates of the same row, the later one decides. */
  lemma LastWriteWins(t: StatusTable, id: int, s1: string, s2: string)
    ensures SetStatus(SetStatus(t, id, s1), id, s2) == SetStatus(t, id, s2)
  {
  }

  /** Once a car is approved or rejected it is never pending again, whatever
      car the admin moderates next: moderation is one-way. */
  lemma SettledStaysSettled(t: StatusTable, id: int, other: int, s: string)
    requires id in t && !IsPending(t[id])
    requires s == Approved || s == Rejected
    ensures id !in Pending(SetStatus(t, other, s))
  {
  }

  /** Updates of two different rows do not interfere. */
  lemma SetStatusCommutes(t: StatusTable, i: int, j: int, s1: string, s2: string)
    requires i != j
    ensures SetStatus(SetStatus(t, i, s1), j, s2) == SetStatus(SetStatus(t, j, s2), i, s1)
  {
  }

  /** The two status columns, as the admin panel's buttons change them. */
  class AdminStore {
    var carStatus: StatusTable
    var inquiryStatus: StatusTable

    constructor (cars: StatusTable, inquiries: StatusTable)
      ensures carStatus == cars && inquiryStatus == inquiries
    {
      carStatus := cars;
      inquiryStatus := inquiries;
    }

    /** `SELECT COUNT(*) FROM cars WHERE <pending>` on the dashboard. */
    function PendingCount(): (n: nat)
      reads this
      ensures n == |Pending(carStatus)|
      ensures n <= |carStatus|
    {
      assert Pending(carStatus) <= carStatus.Keys;
      SubsetCard(Pending(carStatus), carStatus.Keys);
      |Pending(carStatus)|
    }

    /** `SELECT COUNT(*) FROM buyer_inquiries WHERE <new>`. */
    function NewInquiryCount(): (n: nat)
      reads this
      ensures n == |NewInquiries(inquiryStatus)|
      ensures n <= |inquiryStatus|
    {
      assert NewInquiries(inquiryStatus) <= inquiryStatus.Keys;
      SubsetCard(NewInquiries(inquiryStatus), inquiryStatus.Keys);
      |NewInquiries(inquiryStatus)|
    }

    /** The Approve button. It is only drawn on the cards of the Car Listings
        section, which shows the pending cars only. */
    method Approve(id: int)
      requires id in Pending(carStatus)
      modifies this
      ensures carStatus == SetStatus(old(carStatus), id, Approved)
      ensures inquiryStatus == old(inquiryStatus)
      ensures id !in Pending(carStatus)
      ensures Pending(carStatus) == Pending(old(carStatus)) - {id}
    {
      ModerationSettles(carStatus, id, Approved);
      carStatus := SetStatus(carStatus, id, Approved);
    }

    /** The Reject button. It is only drawn on the cards of the Car Listings
        section, which shows the pending cars only. */
    method Reject(id: int)
      requires id in Pending(carStatus)
      modifies this
      ensures carStatus == SetStatus(old(carStatus), id, Rejected)
      ensures inquiryStatus == old(inquiryStatus)
      ensures id !in Pending(carStatus)
      ensures Pending(carStatus) == Pending(old(carStatus)) - {id}
    {
      ModerationSettles(carStatus, id, Rejected);
      carStatus := SetStatus(carStatus, id, Rejected);
    }

    /** The Mark as Contacted button. The Buyer Inquiries section lists
        every inquiry, contacted or not, so any inquiry id can be marked. */
    method MarkContacted(id: int)
      modifies this
      ensures inquiryStatus == SetStatus(old(inquiryStatus), id, Contacted)
      ensures carStatus == old(carStatus)
      ensures id !in NewInquiries(inquiryStatus)
      ensures NewInquiries(inquiryStatus) == NewInquiries(old(inquiryStatus)) - {id}
    {
      ContactedSettles(inquiryStatus, id);
      inquiryStatus := SetStatus(inquiryStatus, id, Contacted);
    }
  }

  /** A subset is no larger than the set that holds it. */
  lemma SubsetCard(a: set<int>, b: set<int>)
    requires a <= b
    ensures |a| <= |b|
  {
    assert b == a + (b - a);
    assert a * (b - a) == {};
  }
}

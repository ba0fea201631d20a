/** A stand-in for the document collection "events" that hooks/use-events.tsx
    reaches through addDoc and getDocs. The backend is a sequence of
    documents that only grows; every call may meet an outage, which the
    caller passes in as `outage`. Document ids are the decimal index of the
    document, so the store never hands out the same id twice. */
module EventStore {
  import opened Wrappers
  import opened EventRecord

  datatype StoreError = Unavailable

  /** A stored document: its id and the record that was written. */
  datatype Doc = Doc(id: string, data: Event)

  function Digit(d: nat): char
    requires d < 10
  {
    (48 + d) as char
  }

  /** The id the store gives to its n-th document: n in decimal. */
  function DocId(n: nat): (s: string)
    ensures |s| >= 1
    ensures n >= 10 <==> |s| >= 2
  {
    if n < 10 then [Digit(n)] else DocId(n / 10) + [Digit(n % 10)]
  }

  /** Distinct documents get distinct ids. */
  lemma {:induction false} DocIdInjective(a: nat, b: nat)
    ensures DocId(a) == DocId(b) ==> a == b
  {
    if DocId(a) == DocId(b) && a >= 10 && b >= 10 {
      var sa, sb := DocId(a), DocId(b);
      assert sa[|sa| - 1] == Digit(a % 10) && sb[|sb| - 1] == Digit(b % 10);
      assert a % 10 == b % 10;
      assert sa[..|sa| - 1] == DocId(a / 10);
      assert sb[..|sb| - 1] == DocId(b / 10);
      DocIdInjective(a / 10, b / 10);
    }
  }

  /** The documents whose `date` field equals `date` exactly (string
      equality), in collection order: the query `where("date", "==", date)`. */
  function ByDate(docs: seq<Doc>, date: string): (r: seq<Doc>)
    ensures |r| <= |docs|
    ensures forall k :: 0 <= k < |r| ==> r[k] in docs && r[k].data.date == date
  {
    if docs == [] then []
    else
      var last := docs[|docs| - 1];
      ByDate(docs[..|docs| - 1], date) + (if last.data.date == date then [last] else [])
  }

  /** A document is returned by the query exactly when it is stored and its
      date matches. */
  lemma {:induction false} ByDateMembers(docs: seq<Doc>, date: string, d: Doc)
    ensures d in ByDate(docs, date) <==> d in docs && d.data.date == date
  {
    if docs != [] {
      var init, last := docs[..|docs| - 1], docs[|docs| - 1];
      assert docs == init + [last];
      ByDateMembers(init, date, d);
    }
  }

  /** The query distributes over the concatenation of collections, so it
      keeps the collection's order. */
  lemma {:induction false} ByDateConcat(a: seq<Doc>, b: seq<Doc>, date: string)
    ensures ByDate(a + b, date) == ByDate(a, date) + ByDate(b, date)
  {
    if b == [] {
      assert a + b == a;
    } else {
      var init, last := b[..|b| - 1], b[|b| - 1];
      assert (a + b)[..|a + b| - 1] == a + init;
      ByDateConcat(a, init, date);
    }
  }

  /** Document k carries the id DocId(k). */
  ghost predicate IdsAssigned(docs: seq<Doc>) {
    forall k :: 0 <= k < |docs| ==> docs[k].id == DocId(k)
  }

  /** The id of the next document is not in use yet. */
  lemma NextIdFresh(docs: seq<Doc>)
    requires IdsAssigned(docs)
    ensures forall k :: 0 <= k < |docs| ==> docs[k].id != DocId(|docs|)
  {
    forall k | 0 <= k < |docs| ensures docs[k].id != DocId(|docs|) {
      DocIdInjective(k, |docs|);
    }
  }

  class Store {
    var docs: seq<Doc>

    ghost predicate Valid()
      reads this
    {
      IdsAssigned(docs)
    }

    constructor ()
      ensures Valid() && docs == []
    {
      docs := [];
    }

    /** addDoc: persist `data` under a new id and return the id. On an
        outage nothing is written. */
    method Create(data: Event, outage: bool) returns (r: Result<string, StoreError>)
      requires Valid()
      modifies this
      ensures Valid()
      ensures outage ==> r == Failure(Unavailable) && docs == old(docs)
      ensures !outage ==> r == Success(DocId(|old(docs)|))
                          && docs == old(docs) + [Doc(r.value, data)]
      ensures r.Success? ==> forall k :: 0 <= k < |old(docs)| ==> old(docs)[k].id != r.value
    {
      if outage {
        r := Failure(Unavailable);
      } else {
        NextIdFresh(docs);
        var id := DocId(|docs|);
        docs := docs + [Doc(id, data)];
        r := Success(id);
      }
    }

    /** getDocs(query(..., where("date", "==", date))): the matching
        documents, or an error on an outage. */
    method Query(date: string, outage: bool) returns (r: Result<seq<Doc>, StoreError>)
      ensures outage ==> r == Failure(Unavailable)
      ensures !outage ==> r == Success(ByDate(docs, date))
    {
      if outage {
        r := Failure(Unavailable);
      } else {
        r := Success(ByDate(docs, date));
      }
    }
  }
}

/**
 * The API's in-memory persistence adapter (apps/api/src/inMemoryAdapter.ts): one store of
 * saved calculations that is appended to, cleared and read. Ids are derived from the
 * store's length at the time of the save.
 */
module InMemoryAdapter {
  import opened Wrappers
  import Decimal

  /** A saved calculation without its id and timestamp: what the API hands to the adapter. */
  datatype CalculationDoc = CalculationDoc(
    principal: real,
    monthlyRate: real,
    months: int,
    monthlyEMI: real,
    formattedMonthlyEMI: string,
    currency: string,
    version: string,
    userId: Option<string>,
    requestId: Option<string>)

  /** A stored record: the document's fields together with `id` and `createdAt`. */
  datatype StoredCalculation = StoredCalculation(id: string, createdAt: string, doc: CalculationDoc)

  /** The id of the n-th record saved since the store was last empty: `inmem-<n>`. */
  function MakeId(n: nat): string {
    "inmem-" + Decimal.NatToString(n)
  }

  lemma FirstId()
    ensures MakeId(1) == "inmem-1"
  {
    assert Decimal.NatToString(1) == [Decimal.DigitChar(1)];
  }

  lemma MakeIdInjective(m: nat, n: nat)
    requires MakeId(m) == MakeId(n)
    ensures m == n
  {
    var prefix := "inmem-";
    assert Decimal.NatToString(m) == MakeId(m)[|prefix|..];
    assert Decimal.NatToString(n) == MakeId(n)[|prefix|..];
    Decimal.NatToStringInjective(m, n);
  }

  /** The store after one save: the record for `doc` appended, its id one past the length. */
  function Saved(records: seq<StoredCalculation>, doc: CalculationDoc, createdAt: string): (r: seq<StoredCalculation>)
    ensures |r| == |records| + 1
    ensures r[..|records|] == records
    ensures r[|records|] == StoredCalculation(MakeId(|records| + 1), createdAt, doc)
  {
    records + [StoredCalculation(MakeId(|records| + 1), createdAt, doc)]
  }

  /** Saving into an empty store gives the single record `inmem-1`. */
  lemma SavedIntoEmpty(doc: CalculationDoc, createdAt: string)
    ensures Saved([], doc, createdAt) == [StoredCalculation(MakeId(1), createdAt, doc)]
    ensures MakeId(1) == "inmem-1"
  {
    FirstId();
  }

  /** Record i (0-based) carries the id `inmem-<i+1>`. */
  predicate WellNumbered(records: seq<StoredCalculation>) {
    forall i :: 0 <= i < |records| ==> records[i].id == MakeId(i + 1)
  }

  lemma SavePreservesNumbering(records: seq<StoredCalculation>, doc: CalculationDoc, createdAt: string)
    requires WellNumbered(records)
    ensures WellNumbered(Saved(records, doc, createdAt))
  {
    var r := Saved(records, doc, createdAt);
    forall i | 0 <= i < |r|
      ensures r[i].id == MakeId(i + 1)
    {
      if i < |records| {
        assert r[i] == r[..|records|][i];
      }
    }
  }

  /** Without a clear in between, no two records share an id. */
  lemma IdsDistinct(records: seq<StoredCalculation>)
    requires WellNumbered(records)
    ensures forall i, j :: 0 <= i < j < |records| ==> records[i].id != records[j].id
  {
    forall i, j | 0 <= i < j < |records|
      ensures records[i].id != records[j].id
    {
      if records[i].id == records[j].id {
        MakeIdInjective(i + 1, j + 1);
      }
    }
  }

  /** Saving the same document twice stores it twice, under two different ids. */
  lemma SavingTwiceKeepsBoth(records: seq<StoredCalculation>, doc: CalculationDoc, first: string, second: string)
    requires WellNumbered(records)
    ensures (var r := Saved(Saved(records, doc, first), doc, second);
             |r| == |records| + 2
             && r[|records|].doc == doc && r[|records| + 1].doc == doc
             && r[|records|].id != r[|records| + 1].id)
  {
    var once := Saved(records, doc, first);
    var r := Saved(once, doc, second);
    assert r[|records|] == r[..|once|][|records|];
    SavePreservesNumbering(records, doc, first);
    SavePreservesNumbering(once, doc, second);
    IdsDistinct(r);
  }

  /** The module-level store. The timestamp `new Date().toISOString()` is passed in by the caller. */
  class InMemoryStore {
    var records: seq<StoredCalculation>

    predicate Valid()
      reads this
    {
      WellNumbered(records)
    }

    constructor ()
      ensures Valid()
      ensures records == []
    {
      records := [];
    }

    /** `clearStore()`: the store becomes empty. */
    method ClearStore()
      modifies this
      ensures Valid()
      ensures records == []
    {
      records := [];
    }

    /** `getStore()`: the stored records in the order they were saved. */
    method GetStore() returns (s: seq<StoredCalculation>)
      requires Valid()
      ensures s == records
      ensures forall i :: 0 <= i < |s| ==> s[i].id == MakeId(i + 1)
    {
      s := records;
    }

    /** `saveCalculation(doc)`: appends the record and returns it with its id. */
    method SaveCalculation(doc: CalculationDoc, createdAt: string) returns (id: string, record: StoredCalculation)
      requires Valid()
      modifies this
      ensures Valid()
      ensures id == MakeId(|old(records)| + 1)
      ensures record == StoredCalculation(id, createdAt, doc)
      ensures records == Saved(old(records), doc, createdAt)
    {
      id := MakeId(|records| + 1);
      record := StoredCalculation(id, createdAt, doc);
      SavePreservesNumbering(records, doc, createdAt);
      records := records + [record];
    }
  }
}

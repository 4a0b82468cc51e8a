/** Emission records, the columns they are filtered and grouped on, and the
    sums the endpoints compute over them. */
module Records {

  /** The three failures the endpoints report, plus the request validation
      that rejects an out-of-range scenario before a handler runs. */
  datatype Error = MissingColumns | NotFound | InsufficientData | InvalidScenario

  datatype Result<T> = Ok(value: T) | Err(error: Error)

  datatype Option<T> = None | Some(value: T)

  /** The nine caller-supplied fields of one emission event: the body of a
      manual entry, or one row of an uploaded table. */
  datatype Entry = Entry(
    businessId: string,
    businessType: string,
    date: string,
    sourceCategory: string,
    activity: string,
    amount: real,
    unit: string,
    emissionFactor: real,
    scope: string)

  /** One row of the `emissions` table: the entry plus the derived emissions
      in kgCO2e and the identity of the caller that stored it. */
  datatype EmissionRecord = EmissionRecord(
    businessId: string,
    businessType: string,
    date: string,
    sourceCategory: string,
    activity: string,
    amount: real,
    unit: string,
    emissionFactor: real,
    emissionsKg: real,
    scope: string,
    userId: string)

  /** The derived column agrees with the raw quantity and its factor. */
  predicate Derived(r: EmissionRecord)
  {
    r.emissionsKg == r.amount * r.emissionFactor
  }

  /** The caller-supplied part of a stored record. */
  function EntryOf(r: EmissionRecord): Entry
  {
    Entry(r.businessId, r.businessType, r.date, r.sourceCategory, r.activity,
          r.amount, r.unit, r.emissionFactor, r.scope)
  }

  /** The row written for an entry: emissions computed at ingestion time and
      the caller's identity stamped on it. */
  function Stamp(e: Entry, userId: string): (r: EmissionRecord)
    ensures Derived(r)
    ensures r.emissionsKg == e.amount * e.emissionFactor
    ensures r.userId == userId
    ensures EntryOf(r) == e
  {
    EmissionRecord(e.businessId, e.businessType, e.date, e.sourceCategory, e.activity,
                   e.amount, e.unit, e.emissionFactor, e.amount * e.emissionFactor,
                   e.scope, userId)
  }

  /** The text columns an endpoint filters or groups on. */
  datatype Column = BusinessId | BusinessType | Date | SourceCategory | Activity | Scope | UserId

  function KeyOf(r: EmissionRecord, c: Column): string
  {
    match c
    case BusinessId => r.businessId
    case BusinessType => r.businessType
    case Date => r.date
    case SourceCategory => r.sourceCategory
    case Activity => r.activity
    case Scope => r.scope
    case UserId => r.userId
  }

  /** The records whose column `c` equals `k`, in table order
      (`WHERE c = k`, or a boolean mask on a dataframe). */
  function Where(rs: seq<EmissionRecord>, c: Column, k: string): (w: seq<EmissionRecord>)
    ensures |w| <= |rs|
    ensures forall x :: x in w <==> x in rs && KeyOf(x, c) == k
    ensures forall x {:trigger multiset(w)[x]} :: multiset(w)[x] == (if KeyOf(x, c) == k then multiset(rs)[x] else 0)
  {
    if rs == [] then []
    else
      assert rs == [rs[0]] + rs[1..];
      (if KeyOf(rs[0], c) == k then [rs[0]] else []) + Where(rs[1..], c, k)
  }

  /** The caller's records for one business: the query every endpoint starts with. */
  function Select(rs: seq<EmissionRecord>, businessId: string, userId: string): (sel: seq<EmissionRecord>)
    ensures |sel| <= |rs|
    ensures forall x :: x in sel <==> x in rs && x.businessId == businessId && x.userId == userId
    ensures forall x {:trigger multiset(sel)[x]} :: multiset(sel)[x]
                     == (if x.businessId == businessId && x.userId == userId then multiset(rs)[x] else 0)
  {
    Where(Where(rs, BusinessId, businessId), UserId, userId)
  }

  /** The sum of the emissions column. */
  function Total(rs: seq<EmissionRecord>): real
  {
    if rs == [] then 0.0 else rs[0].emissionsKg + Total(rs[1..])
  }

  lemma {:induction false} TotalAppend(a: seq<EmissionRecord>, b: seq<EmissionRecord>)
    ensures Total(a + b) == Total(a) + Total(b)
  {
    if a == [] {
      assert a + b == b;
    } else {
      assert (a + b)[1..] == a[1..] + b;
      TotalAppend(a[1..], b);
    }
  }

  /** The sum of amount × emission factor, recomputed from the raw columns. */
  function RawTotal(rs: seq<EmissionRecord>): real
  {
    if rs == [] then 0.0 else rs[0].amount * rs[0].emissionFactor + RawTotal(rs[1..])
  }

  /** When every row's derived column agrees with its raw columns, summing
      the stored emissions is summing amount × factor. */
  lemma {:induction false} TotalOfDerived(rs: seq<EmissionRecord>)
    requires forall i :: 0 <= i < |rs| ==> Derived(rs[i])
    ensures Total(rs) == RawTotal(rs)
  {
    if rs != [] {
      TotalOfDerived(rs[1..]);
    }
  }

  /** A total of non-negative emissions is non-negative. */
  lemma {:induction false} TotalNonNegative(rs: seq<EmissionRecord>)
    requires forall i :: 0 <= i < |rs| ==> rs[i].emissionsKg >= 0.0
    ensures Total(rs) >= 0.0
  {
    if rs != [] {
      TotalNonNegative(rs[1..]);
    }
  }

  /** Taking row `i` out of a table takes its emissions out of the total. */
  lemma TotalRemove(b: seq<EmissionRecord>, i: nat)
    requires i < |b|
    ensures Total(b) == b[i].emissionsKg + Total(b[..i] + b[i + 1..])
  {
    assert b == b[..i] + ([b[i]] + b[i + 1..]);
    TotalAppend(b[..i], [b[i]] + b[i + 1..]);
    TotalAppend(b[..i], b[i + 1..]);
    assert ([b[i]] + b[i + 1..])[1..] == b[i + 1..];
  }

  lemma MultisetRemove(b: seq<EmissionRecord>, i: nat)
    requires i < |b|
    ensures multiset(b[..i] + b[i + 1..]) == multiset(b) - multiset{b[i]}
  {
    assert b == b[..i] + [b[i]] + b[i + 1..];
  }

  /** The order of the rows does not matter to the sum: any rearrangement
      of the same records, copies included, has the same total. */
  lemma {:induction false} TotalPermutation(a: seq<EmissionRecord>, b: seq<EmissionRecord>)
    requires multiset(a) == multiset(b)
    ensures Total(a) == Total(b)
    decreases |a|
  {
    if a == [] {
      assert |b| == |multiset(b)| == 0;
    } else {
      assert a[0] in multiset(a);
      var i :| 0 <= i < |b| && b[i] == a[0];
      MultisetRemove(b, i);
      assert a == [a[0]] + a[1..];
      assert multiset(a[1..]) == multiset(a) - multiset{a[0]};
      TotalPermutation(a[1..], b[..i] + b[i + 1..]);
      TotalRemove(b, i);
    }
  }

  lemma AppendAssociative(a: seq<EmissionRecord>, b: seq<EmissionRecord>, c: seq<EmissionRecord>)
    ensures a + (b + c) == (a + b) + c
  {
  }

  /** Filtering a table with one more row in front. */
  lemma WhereCons(r: EmissionRecord, rest: seq<EmissionRecord>, c: Column, k: string)
    ensures Where([r] + rest, c, k) == (if KeyOf(r, c) == k then [r] else []) + Where(rest, c, k)
  {
    assert ([r] + rest)[0] == r;
    assert ([r] + rest)[1..] == rest;
  }

  /** Filtering a concatenation filters each part. */
  lemma {:induction false} WhereAppend(a: seq<EmissionRecord>, b: seq<EmissionRecord>, c: Column, k: string)
    ensures Where(a + b, c, k) == Where(a, c, k) + Where(b, c, k)
  {
    if a == [] {
      assert a + b == b;
    } else {
      var head := if KeyOf(a[0], c) == k then [a[0]] else [];
      assert a + b == [a[0]] + (a[1..] + b);
      WhereCons(a[0], a[1..] + b, c, k);
      WhereAppend(a[1..], b, c, k);
      assert a == [a[0]] + a[1..];
      WhereCons(a[0], a[1..], c, k);
      AppendAssociative(head, Where(a[1..], c, k), Where(b, c, k));
    }
  }

  /** The records with the caller's identity blanked out: two tables with the
      same anonymous form differ at most in who stored each record. */
  function Anonymous(rs: seq<EmissionRecord>): (out: seq<EmissionRecord>)
    ensures |out| == |rs|
  {
    if rs == [] then [] else [rs[0].(userId := "")] + Anonymous(rs[1..])
  }

  /** Filtering on any column but the caller's identity commutes with
      blanking the identity. */
  lemma {:induction false} WhereAnonymous(rs: seq<EmissionRecord>, c: Column, k: string)
    requires c != UserId
    ensures Anonymous(Where(rs, c, k)) == Where(Anonymous(rs), c, k)
  {
    if rs != [] {
      WhereAnonymous(rs[1..], c, k);
      assert Anonymous(rs)[1..] == Anonymous(rs[1..]);
      assert KeyOf(rs[0].(userId := ""), c) == KeyOf(rs[0], c);
      if KeyOf(rs[0], c) == k {
        assert Where(rs, c, k) == [rs[0]] + Where(rs[1..], c, k);
        assert Anonymous([rs[0]] + Where(rs[1..], c, k))[1..] == Anonymous(Where(rs[1..], c, k));
      } else {
        assert Where(rs, c, k) == Where(rs[1..], c, k);
      }
    }
  }

  /** Blanking the identity leaves the total unchanged. */
  lemma {:induction false} TotalAnonymous(rs: seq<EmissionRecord>)
    ensures Total(Anonymous(rs)) == Total(rs)
  {
    if rs != [] {
      assert Anonymous(rs)[1..] == Anonymous(rs[1..]);
      TotalAnonymous(rs[1..]);
    }
  }
}

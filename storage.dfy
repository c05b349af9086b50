/** The in-memory store behind the server: users and financial analyses kept
    in two JS `Map`s keyed by id. A `Map` remembers insertion order (its
    `values()` enumerate in that order), so each map is paired with the
    sequence of its keys in the order they were first set. */
module Storage {
  import opened JsValues

  datatype User = User(id: string, username: string, password: string)

  datatype InsertUser = InsertUser(username: string, password: string)

  /** A stored analysis. The JSON columns and the nullable columns are JS
      values; timestamps are the readings of the clock, in milliseconds. */
  datatype FinancialAnalysis = FinancialAnalysis(
    id: string,
    userId: Value,
    filename: string,
    fileSize: int,
    analysisDepth: string,
    statementType: Value,
    status: string,
    rawData: Value,
    metrics: Value,
    insights: Value,
    chartData: Value,
    variances: Value,
    ratios: Value,
    createdAt: int,
    updatedAt: int)

  /** What a caller hands to `createAnalysis`; a column it leaves out is `Missing`. */
  datatype InsertAnalysis = InsertAnalysis(
    userId: Value,
    filename: string,
    fileSize: int,
    analysisDepth: string,
    statementType: Value,
    status: string,
    rawData: Value,
    metrics: Value,
    insights: Value,
    chartData: Value,
    variances: Value,
    ratios: Value)

  /** A `Partial<FinancialAnalysis>`: `Some` for each property present in the
      object, whatever its value. `updatedAt` is left out because
      `updateAnalysis` overwrites it in every case. */
  datatype AnalysisUpdate = AnalysisUpdate(
    id: Option<string>,
    userId: Option<Value>,
    filename: Option<string>,
    fileSize: Option<int>,
    analysisDepth: Option<string>,
    statementType: Option<Value>,
    status: Option<string>,
    rawData: Option<Value>,
    metrics: Option<Value>,
    insights: Option<Value>,
    chartData: Option<Value>,
    variances: Option<Value>,
    ratios: Option<Value>,
    createdAt: Option<int>)

  /** The empty partial record `{}`. */
  function NoUpdate(): AnalysisUpdate {
    AnalysisUpdate(None, None, None, None, None, None, None, None, None, None, None, None, None, None)
  }

  /** `{ status: s }` */
  function StatusUpdate(s: string): AnalysisUpdate {
    NoUpdate().(status := Some(s))
  }

  /** `{ ...existing, ...updates, updatedAt: now }` */
  function Merge(e: FinancialAnalysis, u: AnalysisUpdate, now: int): (r: FinancialAnalysis)
    ensures r.updatedAt == now
    ensures u.createdAt.None? ==> r.createdAt == e.createdAt
  {
    FinancialAnalysis(
      u.id.GetOr(e.id),
      u.userId.GetOr(e.userId),
      u.filename.GetOr(e.filename),
      u.fileSize.GetOr(e.fileSize),
      u.analysisDepth.GetOr(e.analysisDepth),
      u.statementType.GetOr(e.statementType),
      u.status.GetOr(e.status),
      u.rawData.GetOr(e.rawData),
      u.metrics.GetOr(e.metrics),
      u.insights.GetOr(e.insights),
      u.chartData.GetOr(e.chartData),
      u.variances.GetOr(e.variances),
      u.ratios.GetOr(e.ratios),
      u.createdAt.GetOr(e.createdAt),
      now)
  }

  /** `{ ...first, ...second }` for two partial records. */
  function Combine(first: AnalysisUpdate, second: AnalysisUpdate): AnalysisUpdate {
    AnalysisUpdate(
      if second.id.Some? then second.id else first.id,
      if second.userId.Some? then second.userId else first.userId,
      if second.filename.Some? then second.filename else first.filename,
      if second.fileSize.Some? then second.fileSize else first.fileSize,
      if second.analysisDepth.Some? then second.analysisDepth else first.analysisDepth,
      if second.statementType.Some? then second.statementType else first.statementType,
      if second.status.Some? then second.status else first.status,
      if second.rawData.Some? then second.rawData else first.rawData,
      if second.metrics.Some? then second.metrics else first.metrics,
      if second.insights.Some? then second.insights else first.insights,
      if second.chartData.Some? then second.chartData else first.chartData,
      if second.variances.Some? then second.variances else first.variances,
      if second.ratios.Some? then second.ratios else first.ratios,
      if second.createdAt.Some? then second.createdAt else first.createdAt)
  }

  /** The record `createAnalysis` builds from its argument, a fresh id and
      the current time. */
  function NewAnalysis(ins: InsertAnalysis, id: string, now: int): (r: FinancialAnalysis)
    ensures r.id == id && r.status != ""
    ensures r.createdAt == now && r.updatedAt == now
  {
    FinancialAnalysis(
      id, ins.userId, ins.filename, ins.fileSize, ins.analysisDepth, ins.statementType,
      if ins.status != "" then ins.status else "processing",
      Or(ins.rawData, Null), Or(ins.metrics, Null), Or(ins.insights, Null),
      Or(ins.chartData, Null), Or(ins.variances, Null), Or(ins.ratios, Null),
      now, now)
  }

  // ---------------------------------------------------------------------------
  // Properties of the record operations

  /** A new record always has a status, carries the given status when there
      is one, and is created and updated at the same instant. */
  lemma NewAnalysisStatus(ins: InsertAnalysis, id: string, now: int)
    ensures var a := NewAnalysis(ins, id, now);
      a.id == id && a.status != "" && a.createdAt == a.updatedAt == now
      && (ins.status != "" ==> a.status == ins.status)
      && (ins.status == "" ==> a.status == "processing")
  {
  }

  /** Each JSON column of a new record holds its own argument when that is
      truthy and `null` when it is falsy (missing, `0`, `""`, ...). */
  lemma NewAnalysisJsonColumns(ins: InsertAnalysis, id: string, now: int)
    ensures var a := NewAnalysis(ins, id, now);
      && a.rawData == (if Truthy(ins.rawData) then ins.rawData else Null)
      && a.metrics == (if Truthy(ins.metrics) then ins.metrics else Null)
      && a.insights == (if Truthy(ins.insights) then ins.insights else Null)
      && a.chartData == (if Truthy(ins.chartData) then ins.chartData else Null)
      && a.variances == (if Truthy(ins.variances) then ins.variances else Null)
      && a.ratios == (if Truthy(ins.ratios) then ins.ratios else Null)
    ensures var a := NewAnalysis(ins, id, now);
      && a.userId == ins.userId && a.filename == ins.filename && a.fileSize == ins.fileSize
      && a.analysisDepth == ins.analysisDepth && a.statementType == ins.statementType
  {
  }

  /** Properties present in the update take its values; every other property
      keeps its old value; `updatedAt` is the new time. */
  lemma MergeFields(e: FinancialAnalysis, u: AnalysisUpdate, now: int)
    ensures var m := Merge(e, u, now);
      && m.id == u.id.GetOr(e.id)
      && m.userId == u.userId.GetOr(e.userId)
      && m.filename == u.filename.GetOr(e.filename)
      && m.fileSize == u.fileSize.GetOr(e.fileSize)
      && m.analysisDepth == u.analysisDepth.GetOr(e.analysisDepth)
      && m.statementType == u.statementType.GetOr(e.statementType)
      && m.status == u.status.GetOr(e.status)
      && m.rawData == u.rawData.GetOr(e.rawData)
      && m.metrics == u.metrics.GetOr(e.metrics)
      && m.insights == u.insights.GetOr(e.insights)
      && m.chartData == u.chartData.GetOr(e.chartData)
      && m.variances == u.variances.GetOr(e.variances)
      && m.ratios == u.ratios.GetOr(e.ratios)
      && m.createdAt == u.createdAt.GetOr(e.createdAt)
      && m.updatedAt == now
  {
  }

  /** The empty update only refreshes `updatedAt`. */
  lemma MergeNothing(e: FinancialAnalysis, now: int)
    ensures Merge(e, NoUpdate(), now) == e.(updatedAt := now)
  {
  }

  /** Two updates in a row act as their combination: the later value of a
      property wins, and an earlier one survives where the later update is
      silent. */
  lemma MergeCompose(e: FinancialAnalysis, u1: AnalysisUpdate, u2: AnalysisUpdate, t1: int, t2: int)
    ensures Merge(Merge(e, u1, t1), u2, t2) == Merge(e, Combine(u1, u2), t2)
  {
  }

  /** Applying the same update twice is applying it once (up to the time). */
  lemma MergeIdempotent(e: FinancialAnalysis, u: AnalysisUpdate, t1: int, t2: int)
    ensures Merge(Merge(e, u, t1), u, t2) == Merge(e, u, t2)
  {
    MergeCompose(e, u, u, t1, t2);
    assert Combine(u, u) == u;
  }

  // ---------------------------------------------------------------------------
  // Maps with insertion order

  /** `order` lists the keys of `m` once each, in insertion order. */
  ghost predicate OrderOf<V>(order: seq<string>, m: map<string, V>) {
    Distinct(order) && forall k :: k in m <==> k in order
  }

  ghost predicate Distinct(s: seq<string>) {
    forall i, j :: 0 <= i < j < |s| ==> s[i] != s[j]
  }

  /** The order after `m.set(k, ...)`: a new key goes last, an existing key
      keeps its place. */
  function SetOrder<V>(order: seq<string>, m: map<string, V>, k: string): seq<string> {
    if k in m then order else order + [k]
  }

  /** The order after `m.delete(k)`. */
  function RemoveKey(order: seq<string>, k: string): (r: seq<string>)
    ensures forall x :: x in r <==> x in order && x != k
  {
    if order == [] then []
    else (if order[0] == k then [] else [order[0]]) + RemoveKey(order[1..], k)
  }

  /** `Array.from(m.values())` */
  function ValuesInOrder<V>(order: seq<string>, m: map<string, V>): (r: seq<V>)
    requires forall i :: 0 <= i < |order| ==> order[i] in m
    ensures |r| == |order| && forall i :: 0 <= i < |order| ==> r[i] == m[order[i]]
  {
    seq(|order|, i requires 0 <= i < |order| => m[order[i]])
  }

  lemma SetKeepsOrder<V>(order: seq<string>, m: map<string, V>, k: string, v: V)
    requires OrderOf(order, m)
    ensures OrderOf(SetOrder(order, m, k), m[k := v])
  {
  }

  lemma {:induction false} RemoveKeepsDistinct(order: seq<string>, k: string)
    requires Distinct(order)
    ensures Distinct(RemoveKey(order, k))
  {
    if order != [] {
      RemoveKeepsDistinct(order[1..], k);
      var rest := RemoveKey(order[1..], k);
      assert order[0] !in order[1..];
      if order[0] != k {
        var r := [order[0]] + rest;
        assert RemoveKey(order, k) == r;
        assert order[0] !in rest;
        forall i, j | 0 <= i < j < |r|
          ensures r[i] != r[j]
        {
          assert r[j] == rest[j - 1] && rest[j - 1] in rest;
          if i > 0 {
            assert r[i] == rest[i - 1];
          }
        }
      } else {
        assert RemoveKey(order, k) == rest;
      }
    }
  }

  lemma ValuesInOrderSnoc<V>(order: seq<string>, m: map<string, V>, i: nat)
    requires i < |order| && forall j :: 0 <= j < |order| ==> order[j] in m
    ensures ValuesInOrder(order[..i + 1], m) == ValuesInOrder(order[..i], m) + [m[order[i]]]
  {
  }

  /** `Map.delete` takes the key out of its place and leaves the other keys
      in their order; deleting an absent key changes nothing. */
  lemma {:induction false} RemoveKeySplice(order: seq<string>, k: string)
    requires Distinct(order)
    ensures k !in order ==> RemoveKey(order, k) == order
    ensures forall p :: 0 <= p < |order| && order[p] == k ==> RemoveKey(order, k) == order[..p] + order[p + 1..]
  {
    if order != [] {
      var rest := order[1..];
      assert Distinct(rest) by {
        forall i, j | 0 <= i < j < |rest|
          ensures rest[i] != rest[j]
        {
          assert rest[i] == order[i + 1] && rest[j] == order[j + 1];
        }
      }
      RemoveKeySplice(rest, k);
      if order[0] == k {
        assert k !in rest by {
          forall j | 0 <= j < |rest|
            ensures rest[j] != k
          {
            assert rest[j] == order[j + 1];
          }
        }
        assert RemoveKey(order, k) == rest;
        forall p | 0 <= p < |order| && order[p] == k
          ensures RemoveKey(order, k) == order[..p] + order[p + 1..]
        {
          assert p == 0;
          assert order[..0] + order[1..] == rest;
        }
      } else {
        assert RemoveKey(order, k) == [order[0]] + RemoveKey(rest, k);
        if k !in order {
          assert k !in rest;
          assert [order[0]] + rest == order;
        }
        forall p | 0 <= p < |order| && order[p] == k
          ensures RemoveKey(order, k) == order[..p] + order[p + 1..]
        {
          assert p > 0 && rest[p - 1] == k;
          assert [order[0]] + (rest[..p - 1] + rest[p..]) == order[..p] + order[p + 1..];
        }
      }
    }
  }

  lemma RemoveKeepsOrder<V>(order: seq<string>, m: map<string, V>, k: string)
    requires OrderOf(order, m)
    ensures OrderOf(RemoveKey(order, k), m - {k})
  {
    RemoveKeepsDistinct(order, k);
  }

  /** `getUserAnalyses` selects by strict equality of `userId` with the argument. */
  predicate OwnedBy(a: FinancialAnalysis, userId: string) {
    a.userId == Str(userId)
  }

  /** The selection holds exactly the stored analyses owned by the user. */
  lemma OwnedSelection(order: seq<string>, m: map<string, FinancialAnalysis>, userId: string, a: FinancialAnalysis)
    requires OrderOf(order, m)
    ensures a in Filter(ValuesInOrder(order, m), x => OwnedBy(x, userId))
        <==> (exists k :: k in m && m[k] == a) && OwnedBy(a, userId)
  {
    var vs := ValuesInOrder(order, m);
    FilterMember(vs, x => OwnedBy(x, userId), a);
    if a in vs {
      var i :| 0 <= i < |vs| && vs[i] == a;
      assert order[i] in m && m[order[i]] == a;
    }
    if exists k :: k in m && m[k] == a {
      var k :| k in m && m[k] == a;
      var i :| 0 <= i < |order| && order[i] == k;
      assert vs[i] == a;
    }
  }

  // ---------------------------------------------------------------------------
  // The store

  class MemStorage {
    var users: map<string, User>
    var userOrder: seq<string>
    var analyses: map<string, FinancialAnalysis>
    var analysisOrder: seq<string>

    ghost predicate Valid()
      reads this
    {
      OrderOf(userOrder, users) && OrderOf(analysisOrder, analyses)
    }

    constructor()
      ensures Valid()
      ensures users == map[] && analyses == map[]
    {
      users := map[];
      userOrder := [];
      analyses := map[];
      analysisOrder := [];
    }

    method GetUser(id: string) returns (u: Option<User>)
      ensures id in users ==> u == Some(users[id])
      ensures id !in users ==> u == None
    {
      if id in users {
        u := Some(users[id]);
      } else {
        u := None;
      }
    }

    /** `find` over the users in insertion order. */
    method GetUserByUsername(username: string) returns (u: Option<User>)
      requires Valid()
      ensures u.None? <==> forall k :: k in users ==> users[k].username != username
      ensures u.Some? ==> exists i :: 0 <= i < |userOrder| && users[userOrder[i]] == u.value
                            && u.value.username == username
                            && forall j :: 0 <= j < i ==> users[userOrder[j]].username != username
    {
      var i := 0;
      while i < |userOrder|
        invariant 0 <= i <= |userOrder|
        invariant forall j :: 0 <= j < i ==> users[userOrder[j]].username != username
      {
        var user := users[userOrder[i]];
        if user.username == username {
          return Some(user);
        }
        i := i + 1;
      }
      forall k | k in users
        ensures users[k].username != username
      {
        var j :| 0 <= j < |userOrder| && userOrder[j] == k;
      }
      return None;
    }

    /** `{ ...insertUser, id }` stored under `id`. */
    method CreateUser(ins: InsertUser, id: string) returns (user: User)
      requires Valid()
      modifies this
      ensures Valid()
      ensures user == User(id, ins.username, ins.password)
      ensures users == old(users)[id := user]
      ensures userOrder == SetOrder(old(userOrder), old(users), id)
      ensures analyses == old(analyses) && analysisOrder == old(analysisOrder)
    {
      user := User(id, ins.username, ins.password);
      SetKeepsOrder(userOrder, users, id, user);
      userOrder := SetOrder(userOrder, users, id);
      users := users[id := user];
    }

    /** Store `NewAnalysis(ins, id, now)` under `id`; nothing else changes. */
    method CreateAnalysis(ins: InsertAnalysis, id: string, now: int) returns (a: FinancialAnalysis)
      requires Valid()
      modifies this
      ensures Valid()
      ensures a == NewAnalysis(ins, id, now)
      ensures analyses == old(analyses)[id := a]
      ensures analysisOrder == SetOrder(old(analysisOrder), old(analyses), id)
      ensures users == old(users) && userOrder == old(userOrder)
    {
      a := NewAnalysis(ins, id, now);
      SetKeepsOrder(analysisOrder, analyses, id, a);
      analysisOrder := SetOrder(analysisOrder, analyses, id);
      analyses := analyses[id := a];
    }

    method GetAnalysis(id: string) returns (a: Option<FinancialAnalysis>)
      ensures id in analyses ==> a == Some(analyses[id])
      ensures id !in analyses ==> a == None
    {
      if id in analyses {
        a := Some(analyses[id]);
      } else {
        a := None;
      }
    }

    /** On an absent id nothing changes and the result is `undefined`; on a
        present one the merged record replaces the old under the same key,
        keeping its place in the order. */
    method UpdateAnalysis(id: string, updates: AnalysisUpdate, now: int) returns (r: Option<FinancialAnalysis>)
      requires Valid()
      modifies this
      ensures Valid()
      ensures id !in old(analyses) ==> r == None && analyses == old(analyses)
      ensures id in old(analyses) ==> r == Some(Merge(old(analyses)[id], updates, now))
                                      && analyses == old(analyses)[id := r.value]
      ensures analysisOrder == old(analysisOrder)
      ensures users == old(users) && userOrder == old(userOrder)
    {
      if id !in analyses {
        return None;
      }
      var updated := Merge(analyses[id], updates, now);
      SetKeepsOrder(analysisOrder, analyses, id, updated);
      analyses := analyses[id := updated];
      r := Some(updated);
    }

    /** The stored analyses whose `userId` is the argument, in insertion order. */
    method GetUserAnalyses(userId: string) returns (rs: seq<FinancialAnalysis>)
      requires Valid()
      ensures rs == Filter(ValuesInOrder(analysisOrder, analyses), x => OwnedBy(x, userId))
    {
      var owned := x => OwnedBy(x, userId);
      rs := [];
      var i := 0;
      while i < |analysisOrder|
        invariant 0 <= i <= |analysisOrder|
        invariant rs == Filter(ValuesInOrder(analysisOrder[..i], analyses), owned)
      {
        var a := analyses[analysisOrder[i]];
        ValuesInOrderSnoc(analysisOrder, analyses, i);
        assert Filter(ValuesInOrder(analysisOrder[..i + 1], analyses), owned)
            == rs + if owned(a) then [a] else [];
        if OwnedBy(a, userId) {
          rs := rs + [a];
        }
        i := i + 1;
      }
      assert analysisOrder[..i] == analysisOrder;
    }

    /** `Map.delete`: true exactly when the id was present; afterwards it is absent. */
    method DeleteAnalysis(id: string) returns (existed: bool)
      requires Valid()
      modifies this
      ensures Valid()
      ensures existed == (id in old(analyses))
      ensures analyses == old(analyses) - {id}
      ensures analysisOrder == RemoveKey(old(analysisOrder), id)
      ensures users == old(users) && userOrder == old(userOrder)
    {
      existed := id in analyses;
      RemoveKeepsOrder(analysisOrder, analyses, id);
      analysisOrder := RemoveKey(analysisOrder, id);
      analyses := analyses - {id};
    }
  }
}

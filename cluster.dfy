/**
  The cluster as the controller sees it through its client: one store of
  AtlasMap resources and one of child objects, a revision counter that every
  successful write advances and whose value becomes the written object's
  resource version, and a table of injected server failures.

  The store checks what the API server checks for these calls: a create of
  an existing name is refused with AlreadyExists; an update or delete of a
  missing one with NotFound; an update that carries a resource version other
  than the stored one with Conflict.  A failure registered in `faults` for a
  verb and kind is returned by every such call instead, which stands for a
  server error, a forbidden request or a concurrent writer.  A successful
  write returns the object as stored, which the client copies back into the
  caller's object.
*/
module ClusterApi {
  import opened Wrappers
  import opened Errors
  import opened Meta
  import opened AtlasMapTypes
  import opened Objects
  import GoStrings

  datatype Verb = Get | Create | Update | UpdateStatus | Delete

  datatype Target = ChildTarget(kind: Kind) | AtlasMapTarget

  datatype Call = Call(verb: Verb, target: Target)

  /** The resource version the server stamps on the write that brings the revision to `n`. */
  function VersionString(n: nat): string
  {
    GoStrings.FormatNat(n)
  }

  /** A custom resource with the resource version `v`. */
  function Stamped(cr: AtlasMap, v: string): (r: AtlasMap)
    ensures r.Key() == cr.Key() && r.ResourceVersion() == v
    ensures r.spec == cr.spec && r.status == cr.status
  {
    cr.(meta := cr.meta.(resourceVersion := v))
  }

  /** `after` is `before` with at most the entry at `k` written, and that entry present. */
  predicate OnlyAt<K, V(==)>(before: map<K, V>, after: map<K, V>, k: K)
  {
    k in after && after == before[k := after[k]]
  }

  /** Two steps that each write only the entry at `k` together write only that entry. */
  lemma OnlyAtTrans<K, V>(a: map<K, V>, b: map<K, V>, c: map<K, V>, k: K)
    requires OnlyAt(a, b, k) && OnlyAt(b, c, k)
    ensures OnlyAt(a, c, k)
  {
  }

  /** A map written at most at `k`, or with `k` removed, agrees with the old one on every other key. */
  lemma OnlyAtRest<K, V>(before: map<K, V>, after: map<K, V>, k: K)
    requires OnlyAt(before, after, k) || after == before - {k}
    ensures after - {k} == before - {k}
  {
  }

  /** Removing a key a map does not hold leaves the map as it is. */
  lemma RemoveAbsent<K, V>(m: map<K, V>, k: K)
    requires k !in m
    ensures m - {k} == m
  {
  }

  /** Writing back the entry a map already holds leaves the map as it is. */
  lemma RewriteSame<K, V>(m: map<K, V>, k: K)
    requires k in m
    ensures m[k := m[k]] == m
  {
  }

  /** Maps that agree outside `k` hold the same entry at every other key. */
  lemma SameElsewhere<K, V>(before: map<K, V>, after: map<K, V>, k: K, j: K)
    requires after - {k} == before - {k} && j != k
    ensures j in after <==> j in before
    ensures j in after ==> after[j] == before[j]
  {
    assert j in after <==> j in after - {k};
    assert j in before <==> j in before - {k};
    if j in after {
      assert after[j] == (after - {k})[j];
      assert before[j] == (before - {k})[j];
    }
  }

  /**
    A map that agrees with `m0` outside `s`, and then is written at most at
    `r`, agrees with `m0` outside `s` and `r`.
  */
  lemma WidenFrame<K, V>(m0: map<K, V>, m1: map<K, V>, m2: map<K, V>, s: set<K>, r: K)
    requires m1 - s == m0 - s && m2 - {r} == m1 - {r}
    ensures m2 - (s + {r}) == m0 - (s + {r})
  {
    assert m2 - (s + {r}) == (m2 - {r}) - s;
    assert m1 - (s + {r}) == (m1 - {r}) - s;
    assert m1 - (s + {r}) == (m1 - s) - {r};
    assert m0 - (s + {r}) == (m0 - s) - {r};
  }

  /** A create stored `obj`, stamped with the new revision, and wrote nothing else. */
  twostate predicate Created(c: Cluster, obj: Object)
    reads c
  {
    && c.revision == old(c.revision) + 1
    && c.objects == old(c.objects)[obj.Address() := obj.WithVersion(VersionString(c.revision))]
    && c.atlasMaps == old(c.atlasMaps)
  }

  /**
    An update of `obj` stored it as `stored`: stamped with the new revision
    and keeping the status of the object it replaced; nothing else was written.
  */
  twostate predicate Updated(c: Cluster, obj: Object, stored: Object)
    reads c
  {
    && obj.Address() in old(c.objects)
    && c.revision == old(c.revision) + 1
    && stored == obj.KeepingStatusOf(old(c.objects)[obj.Address()]).WithVersion(VersionString(c.revision))
    && c.objects == old(c.objects)[obj.Address() := stored]
    && c.atlasMaps == old(c.atlasMaps)
  }

  /** A delete removed the object at `ref` and nothing else. */
  twostate predicate Deleted(c: Cluster, ref: Ref)
    reads c
  {
    && c.revision == old(c.revision) + 1
    && c.objects == old(c.objects) - {ref}
    && c.atlasMaps == old(c.atlasMaps)
  }

  /** An update of the custom resource wrote the metadata and spec of `cr` and kept the stored status. */
  twostate predicate SpecWritten(c: Cluster, cr: AtlasMap, stored: AtlasMap)
    reads c
  {
    && cr.Key() in old(c.atlasMaps)
    && c.revision == old(c.revision) + 1
    && stored == Stamped(cr.(status := old(c.atlasMaps)[cr.Key()].status), VersionString(c.revision))
    && c.atlasMaps == old(c.atlasMaps)[cr.Key() := stored]
    && c.objects == old(c.objects)
  }

  /** A status update wrote the status of `cr` and kept the stored metadata and spec. */
  twostate predicate StatusWritten(c: Cluster, cr: AtlasMap, stored: AtlasMap)
    reads c
  {
    && cr.Key() in old(c.atlasMaps)
    && c.revision == old(c.revision) + 1
    && stored == Stamped(old(c.atlasMaps)[cr.Key()].(status := cr.status), VersionString(c.revision))
    && c.atlasMaps == old(c.atlasMaps)[cr.Key() := stored]
    && c.objects == old(c.objects)
  }

  class Cluster {
    var atlasMaps: map<Key, AtlasMap>
    var objects: map<Ref, Object>
    /** The number of successful writes so far. */
    var revision: nat
    const faults: map<Call, Error>

    /** Every stored object sits under its own address. */
    ghost predicate Valid()
      reads this
    {
      && (forall r | r in objects :: objects[r].Address() == r)
      && (forall k | k in atlasMaps :: atlasMaps[k].Key() == k)
    }

    /**
      Every stored Deployment has an annotation map.  The controller writes
      into that map without creating it, which panics on a nil map; it keeps
      this property itself, since it only stores Deployments it built with
      annotations or read with them.
    */
    ghost predicate DeploymentsAnnotated()
      reads this
    {
      forall r | r in objects && objects[r].DeploymentObject? :: objects[r].deployment.meta.annotations.Some?
    }

    constructor (atlasMaps: map<Key, AtlasMap>, objects: map<Ref, Object>, faults: map<Call, Error>)
      requires forall r | r in objects :: objects[r].Address() == r
      requires forall k | k in atlasMaps :: atlasMaps[k].Key() == k
      ensures Valid()
      ensures this.atlasMaps == atlasMaps && this.objects == objects && this.faults == faults
      ensures revision == 0
    {
      this.atlasMaps := atlasMaps;
      this.objects := objects;
      this.faults := faults;
      revision := 0;
    }

    /** The failure injected for `verb` on `target`, if any. */
    function Fault(verb: Verb, target: Target): Option<Error>
      reads this
    {
      if Call(verb, target) in faults then Some(faults[Call(verb, target)]) else None
    }

    /** What a Get of `ref` yields in the current state. */
    function Read(ref: Ref): Result<Object, Error>
      reads this
    {
      match Fault(Verb.Get, ChildTarget(ref.kind))
      case Some(e) => Err(e)
      case None => if ref in objects then Ok(objects[ref]) else Err(NotFound)
    }

    /** Why a Create of `obj` is refused, if it is. */
    function CreateRefusal(obj: Object): Option<Error>
      reads this
    {
      match Fault(Verb.Create, ChildTarget(obj.Kind()))
      case Some(e) => Some(e)
      case None => if obj.Address() in objects then Some(AlreadyExists) else None
    }

    /**
      Why an Update of `obj` is refused, if it is: an empty resource version
      asks for an unconditional write, any other must match the stored one.
    */
    function UpdateRefusal(obj: Object): Option<Error>
      reads this
    {
      match Fault(Verb.Update, ChildTarget(obj.Kind()))
      case Some(e) => Some(e)
      case None =>
        if obj.Address() !in objects then Some(NotFound)
        else if obj.Meta().resourceVersion != "" && obj.Meta().resourceVersion != objects[obj.Address()].Meta().resourceVersion then Some(Conflict)
        else None
    }

    function DeleteRefusal(ref: Ref): Option<Error>
      reads this
    {
      match Fault(Verb.Delete, ChildTarget(ref.kind))
      case Some(e) => Some(e)
      case None => if ref !in objects then Some(NotFound) else None
    }

    function ReadAtlasMap(key: Key): Result<AtlasMap, Error>
      reads this
    {
      match Fault(Verb.Get, AtlasMapTarget)
      case Some(e) => Err(e)
      case None => if key in atlasMaps then Ok(atlasMaps[key]) else Err(NotFound)
    }

    /** Why a write of `cr` through `verb` (Update or UpdateStatus) is refused, if it is. */
    function AtlasMapRefusal(verb: Verb, cr: AtlasMap): Option<Error>
      reads this
    {
      match Fault(verb, AtlasMapTarget)
      case Some(e) => Some(e)
      case None =>
        if cr.Key() !in atlasMaps then Some(NotFound)
        else if cr.ResourceVersion() != "" && cr.ResourceVersion() != atlasMaps[cr.Key()].ResourceVersion() then Some(Conflict)
        else None
    }

    method Get(ref: Ref) returns (r: Result<Object, Error>)
      requires Valid()
      ensures r == Read(ref)
      ensures r.Ok? ==> r.value.Address() == ref
    {
      if Call(Verb.Get, ChildTarget(ref.kind)) in faults {
        return Err(faults[Call(Verb.Get, ChildTarget(ref.kind))]);
      }
      if ref !in objects {
        return Err(NotFound);
      }
      return Ok(objects[ref]);
    }

    method Create(obj: Object) returns (err: Option<Error>)
      requires Valid()
      modifies this
      ensures Valid()
      ensures err == old(CreateRefusal(obj))
      ensures err.Some? ==> unchanged(this)
      ensures err.None? ==> Created(this, obj)
    {
      err := CreateRefusal(obj);
      if err.None? {
        revision := revision + 1;
        objects := objects[obj.Address() := obj.WithVersion(VersionString(revision))];
      }
    }

    /** On success `stored` is the object as written; on failure it is `obj` as given. */
    method Update(obj: Object) returns (stored: Object, err: Option<Error>)
      requires Valid()
      modifies this
      ensures Valid()
      ensures err == old(UpdateRefusal(obj))
      ensures err.Some? ==> unchanged(this) && stored == obj
      ensures err.None? ==> Updated(this, obj, stored)
    {
      err := UpdateRefusal(obj);
      stored := obj;
      if err.None? {
        revision := revision + 1;
        stored := obj.KeepingStatusOf(objects[obj.Address()]).WithVersion(VersionString(revision));
        objects := objects[obj.Address() := stored];
      }
    }

    method Delete(ref: Ref) returns (err: Option<Error>)
      requires Valid()
      modifies this
      ensures Valid()
      ensures err == old(DeleteRefusal(ref))
      ensures err.Some? ==> unchanged(this)
      ensures err.None? ==> Deleted(this, ref)
    {
      err := DeleteRefusal(ref);
      if err.None? {
        revision := revision + 1;
        objects := objects - {ref};
      }
    }

    method GetAtlasMap(key: Key) returns (r: Result<AtlasMap, Error>)
      requires Valid()
      ensures r == ReadAtlasMap(key)
      ensures r.Ok? ==> r.value.Key() == key
    {
      if Call(Verb.Get, AtlasMapTarget) in faults {
        return Err(faults[Call(Verb.Get, AtlasMapTarget)]);
      }
      if key !in atlasMaps {
        return Err(NotFound);
      }
      return Ok(atlasMaps[key]);
    }

    /**
      An Update of the custom resource writes its metadata and spec; the
      stored status stays, since only the status endpoint writes it.
    */
    method UpdateAtlasMap(cr: AtlasMap) returns (stored: AtlasMap, err: Option<Error>)
      requires Valid()
      modifies this
      ensures Valid()
      ensures err == old(AtlasMapRefusal(Verb.Update, cr))
      ensures err.Some? ==> unchanged(this) && stored == cr
      ensures err.None? ==> SpecWritten(this, cr, stored)
    {
      err := AtlasMapRefusal(Verb.Update, cr);
      stored := cr;
      if err.None? {
        revision := revision + 1;
        stored := Stamped(cr.(status := atlasMaps[cr.Key()].status), VersionString(revision));
        atlasMaps := atlasMaps[cr.Key() := stored];
      }
    }

    /** A status Update writes the status alone; the stored metadata and spec stay. */
    method UpdateAtlasMapStatus(cr: AtlasMap) returns (stored: AtlasMap, err: Option<Error>)
      requires Valid()
      modifies this
      ensures Valid()
      ensures err == old(AtlasMapRefusal(Verb.UpdateStatus, cr))
      ensures err.Some? ==> unchanged(this) && stored == cr
      ensures err.None? ==> StatusWritten(this, cr, stored)
    {
      err := AtlasMapRefusal(Verb.UpdateStatus, cr);
      stored := cr;
      if err.None? {
        revision := revision + 1;
        stored := Stamped(atlasMaps[cr.Key()].(status := cr.status), VersionString(revision));
        atlasMaps := atlasMaps[cr.Key() := stored];
      }
    }
  }
}

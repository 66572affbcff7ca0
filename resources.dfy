/**
  The container's resource limits and requests, built from the four quantity
  strings of the AtlasMap spec, and the test whether a container's lists are
  out of date with respect to the spec.

  Quantities are compared by their canonical string, so the model keeps a
  quantity as that string.  Parsing a quantity (resource.ParseQuantity
  followed by Quantity.String) is a library routine; the model takes it as a
  deterministic partial function `parse`, of which it only assumes that the
  string "0" parses to the zero quantity, whose canonical form is "0".
*/
module Resources {
  import opened Wrappers
  import opened Errors
  import opened AtlasMapTypes

  datatype ResourceName = Cpu | Memory

  /** A quantity, by its canonical string. */
  type Quantity = string

  type ResourceList = map<ResourceName, Quantity>

  /** corev1.ResourceRequirements: a container's limits and requests. */
  datatype Requirements = Requirements(limits: ResourceList, requests: ResourceList)

  /** resource.ParseQuantity then String(): the canonical form, or None when rejected. */
  type QuantityParser = string -> Option<Quantity>

  /** The zero quantity is written "0", and "0" parses to it. */
  predicate ReadsZero(parse: QuantityParser)
  {
    parse("0") == Some("0")
  }

  /** ResourceList.Cpu() and .Memory(): the stored quantity, or the zero quantity when absent. */
  function Lookup(list: ResourceList, name: ResourceName): Quantity
  {
    if name in list then list[name] else "0"
  }

  /** A spec string is usable: empty (no quantity) or accepted by the parser. */
  predicate Accepts(parse: QuantityParser, s: string)
  {
    s == "" || parse(s).Some?
  }

  /** The quantity a spec string asks for: an empty string asks for zero. */
  function Desired(parse: QuantityParser, s: string): Quantity
    requires Accepts(parse, s)
  {
    if s == "" then "0" else parse(s).value
  }

  /**
    `list` holds exactly the quantities the two spec strings give: a key is
    present just when its string is non-empty, with the parsed quantity.
  */
  predicate Describes(list: ResourceList, parse: QuantityParser, cpu: string, memory: string)
  {
    && (Cpu in list <==> cpu != "")
    && (Memory in list <==> memory != "")
    && (Cpu in list ==> parse(cpu) == Some(list[Cpu]))
    && (Memory in list ==> parse(memory) == Some(list[Memory]))
  }

  /** The first non-empty string the parser rejects, as the error it raises. */
  function FirstInvalid(parse: QuantityParser, fields: seq<string>): (e: Option<Error>)
    ensures e.None? <==> forall i :: 0 <= i < |fields| ==> Accepts(parse, fields[i])
    ensures e.Some? ==> exists i :: (0 <= i < |fields| && !Accepts(parse, fields[i])
      && e.value == InvalidQuantity(fields[i])
      && forall j :: 0 <= j < i ==> Accepts(parse, fields[j]))
  {
    if fields == [] then None
    else if !Accepts(parse, fields[0]) then Some(InvalidQuantity(fields[0]))
    else
      var rest := FirstInvalid(parse, fields[1..]);
      if rest.Some? then
        var i :| 0 <= i < |fields[1..]| && !Accepts(parse, fields[1..][i])
          && rest.value == InvalidQuantity(fields[1..][i])
          && forall j :: 0 <= j < i ==> Accepts(parse, fields[1..][j]);
        assert fields[i + 1] == fields[1..][i];
        assert forall j :: 0 < j < i + 1 ==> fields[j] == fields[1..][j - 1];
        rest
      else
        assert forall i :: 1 <= i < |fields| ==> fields[i] == fields[1..][i - 1];
        rest
  }

  /** The four resource strings, in the order ConfigureResources reads them. */
  function ResourceFields(spec: AtlasMapSpec): seq<string>
  {
    [spec.limitCPU, spec.limitMemory, spec.requestCPU, spec.requestMemory]
  }

  /** Every one of the four resource strings is empty or parses. */
  predicate AllAccepted(spec: AtlasMapSpec, parse: QuantityParser)
  {
    && Accepts(parse, spec.limitCPU) && Accepts(parse, spec.limitMemory)
    && Accepts(parse, spec.requestCPU) && Accepts(parse, spec.requestMemory)
  }

  lemma FirstInvalidCons(parse: QuantityParser, x: string, rest: seq<string>)
    ensures FirstInvalid(parse, [x] + rest) ==
      if !Accepts(parse, x) then Some(InvalidQuantity(x)) else FirstInvalid(parse, rest)
  {
    assert ([x] + rest)[1..] == rest;
  }

  /** FirstInvalid on the four resource strings, case by case. */
  lemma FirstInvalidOfFields(spec: AtlasMapSpec, parse: QuantityParser)
    ensures FirstInvalid(parse, ResourceFields(spec)) ==
      if !Accepts(parse, spec.limitCPU) then Some(InvalidQuantity(spec.limitCPU))
      else if !Accepts(parse, spec.limitMemory) then Some(InvalidQuantity(spec.limitMemory))
      else if !Accepts(parse, spec.requestCPU) then Some(InvalidQuantity(spec.requestCPU))
      else if !Accepts(parse, spec.requestMemory) then Some(InvalidQuantity(spec.requestMemory))
      else None
  {
    FirstInvalidCons(parse, spec.requestMemory, []);
    FirstInvalidCons(parse, spec.requestCPU, [spec.requestMemory]);
    FirstInvalidCons(parse, spec.limitMemory, [spec.requestCPU, spec.requestMemory]);
    FirstInvalidCons(parse, spec.limitCPU, [spec.limitMemory, spec.requestCPU, spec.requestMemory]);
    assert [spec.requestMemory] == [spec.requestMemory] + [];
    assert [spec.requestCPU, spec.requestMemory] == [spec.requestCPU] + [spec.requestMemory];
    assert [spec.limitMemory, spec.requestCPU, spec.requestMemory] == [spec.limitMemory] + [spec.requestCPU, spec.requestMemory];
    assert ResourceFields(spec) == [spec.limitCPU] + [spec.limitMemory, spec.requestCPU, spec.requestMemory];
  }

  /** The list the two spec strings ask for: a key for each non-empty string, with its parsed quantity. */
  function ListFor(parse: QuantityParser, cpu: string, memory: string): (list: ResourceList)
    requires Accepts(parse, cpu) && Accepts(parse, memory)
    ensures Describes(list, parse, cpu, memory)
  {
    var withCpu: ResourceList := if cpu == "" then map[] else map[Cpu := parse(cpu).value];
    if memory == "" then withCpu else withCpu[Memory := parse(memory).value]
  }

  /** The requirements the four spec strings ask for. */
  function Configured(spec: AtlasMapSpec, parse: QuantityParser): Requirements
    requires AllAccepted(spec, parse)
  {
    Requirements(ListFor(parse, spec.limitCPU, spec.limitMemory), ListFor(parse, spec.requestCPU, spec.requestMemory))
  }

  /** The spec strings determine the list they describe. */
  lemma DescribedUniquely(a: ResourceList, b: ResourceList, parse: QuantityParser, cpu: string, memory: string)
    requires Describes(a, parse, cpu, memory) && Describes(b, parse, cpu, memory)
    ensures a == b
  {
    assert forall n :: n in a <==> n in b by {
      forall n ensures n in a <==> n in b {
        if n == Cpu { } else { assert n == Memory; }
      }
    }
    assert forall n | n in a :: a[n] == b[n] by {
      forall n | n in a ensures a[n] == b[n] {
        if n == Cpu { } else { assert n == Memory; }
      }
    }
  }

  /**
    ConfigureResources: fills fresh limits and requests key by key and
    installs them only when every non-empty string parsed; the first
    rejected string is the error and leaves `current` as it was.
  */
  method ConfigureResources(spec: AtlasMapSpec, parse: QuantityParser, current: Requirements)
    returns (resources: Requirements, err: Option<Error>)
    ensures err == FirstInvalid(parse, ResourceFields(spec))
    ensures err.Some? ==> resources == current
    ensures err.None? ==>
      && Describes(resources.limits, parse, spec.limitCPU, spec.limitMemory)
      && Describes(resources.requests, parse, spec.requestCPU, spec.requestMemory)
    ensures err.None? <==> AllAccepted(spec, parse)
    ensures err.None? ==> resources == Configured(spec, parse)
  {
    FirstInvalidOfFields(spec, parse);
    resources := current;
    var limits: ResourceList := map[];
    var requests: ResourceList := map[];
    if |spec.limitCPU| > 0 {
      var q := parse(spec.limitCPU);
      if q.None? {
        err := Some(InvalidQuantity(spec.limitCPU));
        return;
      }
      limits := limits[Cpu := q.value];
    }
    if |spec.limitMemory| > 0 {
      var q := parse(spec.limitMemory);
      if q.None? {
        err := Some(InvalidQuantity(spec.limitMemory));
        return;
      }
      limits := limits[Memory := q.value];
    }
    if |spec.requestCPU| > 0 {
      var q := parse(spec.requestCPU);
      if q.None? {
        err := Some(InvalidQuantity(spec.requestCPU));
        return;
      }
      requests := requests[Cpu := q.value];
    }
    if |spec.requestMemory| > 0 {
      var q := parse(spec.requestMemory);
      if q.None? {
        err := Some(InvalidQuantity(spec.requestMemory));
        return;
      }
      requests := requests[Memory := q.value];
    }
    err := None;
    resources := Requirements(limits, requests);
    DescribedUniquely(limits, ListFor(parse, spec.limitCPU, spec.limitMemory), parse, spec.limitCPU, spec.limitMemory);
    DescribedUniquely(requests, ListFor(parse, spec.requestCPU, spec.requestMemory), parse, spec.requestCPU, spec.requestMemory);
  }

  /** The quantity in `list` for `name` differs from what the spec string asks for. */
  predicate DiffersAt(list: ResourceList, parse: QuantityParser, name: ResourceName, s: string)
    requires Accepts(parse, s)
  {
    Lookup(list, name) != Desired(parse, s)
  }

  /** The two spec strings a list is compared with, by resource name. */
  function Field(name: ResourceName, cpu: string, memory: string): string
  {
    if name == Cpu then cpu else memory
  }

  /**
    resourceListQuantityChanged: whether the CPU or memory quantity of
    `list` differs from the spec strings.  The Go code walks a map, whose
    order is unspecified; `order` is that walk.  The order decides which
    error is reported when both strings are rejected, and nothing else.
  */
  method ResourceListQuantityChanged(list: ResourceList, cpu: string, memory: string,
                                     parse: QuantityParser, order: seq<ResourceName>)
    returns (r: Result<bool, Error>)
    requires ReadsZero(parse)
    requires order == [Cpu, Memory] || order == [Memory, Cpu]
    ensures r.Ok? <==> Accepts(parse, cpu) && Accepts(parse, memory)
    ensures r.Ok? ==> r.value == (DiffersAt(list, parse, Cpu, cpu) || DiffersAt(list, parse, Memory, memory))
    ensures r.Err? ==>
      var first := if Accepts(parse, Field(order[0], cpu, memory)) then order[1] else order[0];
      r.error == InvalidQuantity(Field(first, cpu, memory)) && !Accepts(parse, Field(first, cpu, memory))
  {
    var needsUpdate := false;
    for i := 0 to |order|
      invariant forall j :: 0 <= j < i ==> Accepts(parse, Field(order[j], cpu, memory))
      invariant needsUpdate <==> exists j :: (0 <= j < i
        && DiffersAt(list, parse, order[j], Field(order[j], cpu, memory)))
    {
      var name := order[i];
      var newValue := parse("0").value;
      if name == Cpu && |cpu| > 0 {
        var q := parse(cpu);
        if q.None? {
          return Err(InvalidQuantity(cpu));
        }
        newValue := q.value;
      }
      if name == Memory && |memory| > 0 {
        var q := parse(memory);
        if q.None? {
          return Err(InvalidQuantity(memory));
        }
        newValue := q.value;
      }
      assert newValue == Desired(parse, Field(name, cpu, memory));
      if Lookup(list, name) != newValue {
        needsUpdate := true;
      }
    }
    assert Accepts(parse, Field(order[0], cpu, memory)) && Accepts(parse, Field(order[1], cpu, memory));
    return Ok(needsUpdate);
  }

  /** Whether either list of `resources` is out of date with respect to the spec. */
  predicate Outdated(spec: AtlasMapSpec, parse: QuantityParser, resources: Requirements)
    requires AllAccepted(spec, parse)
  {
    || DiffersAt(resources.limits, parse, Cpu, spec.limitCPU)
    || DiffersAt(resources.limits, parse, Memory, spec.limitMemory)
    || DiffersAt(resources.requests, parse, Cpu, spec.requestCPU)
    || DiffersAt(resources.requests, parse, Memory, spec.requestMemory)
  }

  /**
    ResourceListChanged: limits changed or requests changed; a rejected
    string is an error instead of an answer.  The limits are compared first,
    so their error wins.
  */
  method ResourceListChanged(spec: AtlasMapSpec, resources: Requirements, parse: QuantityParser,
                             limitsOrder: seq<ResourceName>, requestsOrder: seq<ResourceName>)
    returns (r: Result<bool, Error>)
    requires ReadsZero(parse)
    requires limitsOrder == [Cpu, Memory] || limitsOrder == [Memory, Cpu]
    requires requestsOrder == [Cpu, Memory] || requestsOrder == [Memory, Cpu]
    ensures r.Ok? <==> AllAccepted(spec, parse)
    ensures r.Ok? ==> r.value == Outdated(spec, parse, resources)
    ensures r.Err? ==> exists i :: (0 <= i < 4 && !Accepts(parse, ResourceFields(spec)[i])
      && r.error == InvalidQuantity(ResourceFields(spec)[i]))
  {
    var fields := ResourceFields(spec);
    var limitsUpdated := ResourceListQuantityChanged(resources.limits, spec.limitCPU, spec.limitMemory, parse, limitsOrder);
    if limitsUpdated.Err? {
      var first := if Accepts(parse, Field(limitsOrder[0], spec.limitCPU, spec.limitMemory)) then limitsOrder[1] else limitsOrder[0];
      if first == Cpu { assert fields[0] == spec.limitCPU; } else { assert fields[1] == spec.limitMemory; }
      return Err(limitsUpdated.error);
    }
    var requestsUpdated := ResourceListQuantityChanged(resources.requests, spec.requestCPU, spec.requestMemory, parse, requestsOrder);
    if requestsUpdated.Err? {
      var first := if Accepts(parse, Field(requestsOrder[0], spec.requestCPU, spec.requestMemory)) then requestsOrder[1] else requestsOrder[0];
      if first == Cpu { assert fields[2] == spec.requestCPU; } else { assert fields[3] == spec.requestMemory; }
      return Err(requestsUpdated.error);
    }
    return Ok(limitsUpdated.value || requestsUpdated.value);
  }

  /** A list that describes the spec strings asks for no change, whatever the order of the walk. */
  lemma DescribedIsCurrent(list: ResourceList, parse: QuantityParser, cpu: string, memory: string)
    requires Describes(list, parse, cpu, memory)
    ensures Accepts(parse, cpu) && Accepts(parse, memory)
    ensures !DiffersAt(list, parse, Cpu, cpu) && !DiffersAt(list, parse, Memory, memory)
  {
  }

  /**
    What ConfigureResources installs is not outdated: reconciling the
    resources a second time issues no update.
  */
  lemma ConfiguredIsCurrent(spec: AtlasMapSpec, parse: QuantityParser, resources: Requirements)
    requires Describes(resources.limits, parse, spec.limitCPU, spec.limitMemory)
    requires Describes(resources.requests, parse, spec.requestCPU, spec.requestMemory)
    ensures AllAccepted(spec, parse)
    ensures !Outdated(spec, parse, resources)
  {
    DescribedIsCurrent(resources.limits, parse, spec.limitCPU, spec.limitMemory);
    DescribedIsCurrent(resources.requests, parse, spec.requestCPU, spec.requestMemory);
  }

  /**
    An empty spec string compares as the zero quantity: a list holding an
    explicit "0" for it is not outdated, although ConfigureResources would
    leave that key out.
  */
  lemma EmptyComparesAsZero(list: ResourceList, parse: QuantityParser, name: ResourceName)
    requires name in list && list[name] == "0"
    ensures !DiffersAt(list, parse, name, "")
    ensures !Describes(list, parse, if name == Cpu then "" else "1", if name == Memory then "" else "1")
  {
  }

  /** Quantities are compared in canonical form: two spellings of one quantity compare equal. */
  lemma CanonicalComparison(list: ResourceList, parse: QuantityParser, name: ResourceName, s: string, t: string)
    requires s != "" && t != "" && parse(s).Some? && parse(s) == parse(t)
    ensures DiffersAt(list, parse, name, s) == DiffersAt(list, parse, name, t)
  {
  }
}

/**
  The AtlasMap custom resource: its spec, its status and the three phases,
  with the validation patterns the CRD schema puts on the quantity fields.
*/
module AtlasMapTypes {
  import opened Wrappers
  import opened Meta
  import GoStrings

  /** Go's int32. */
  type Int32 = x: int | -0x8000_0000 <= x <= 0x7FFF_FFFF

  /** AtlasMapPhase: the three lifecycle values the controller writes to status. */
  datatype Phase = Undeployed | Deploying | Deployed
  {
    /** The string stored in `status.phase`. */
    function Name(): (s: string)
      ensures s in {"Undeployed", "Deploying", "Deployed"}
    {
      match this
      case Undeployed => "Undeployed"
      case Deploying => "Deploying"
      case Deployed => "Deployed"
    }
  }

  /** Reads a stored phase string back; "" and anything else is no phase. */
  function ParsePhase(s: string): (p: Option<Phase>)
    ensures p.Some? ==> p.value.Name() == s
  {
    if s == "Undeployed" then Some(Undeployed)
    else if s == "Deploying" then Some(Deploying)
    else if s == "Deployed" then Some(Deployed)
    else None
  }

  /** Every phase is stored under its own name, and read back as itself. */
  lemma PhaseNameRoundTrip(p: Phase)
    ensures ParsePhase(p.Name()) == Some(p)
  {
  }

  datatype AtlasMapSpec = AtlasMapSpec(
    replicas: Int32,
    routeHostName: string,
    version: string,
    requestCPU: string,
    requestMemory: string,
    limitCPU: string,
    limitMemory: string)

  /** `phase` is None until the controller first writes one (Go's ""). */
  datatype AtlasMapStatus = AtlasMapStatus(url: string, image: string, phase: Option<Phase>)

  datatype AtlasMap = AtlasMap(meta: ObjectMeta, spec: AtlasMapSpec, status: AtlasMapStatus)
  {
    function Key(): Key { meta.Key() }
    function Name(): string { meta.name }
    function Namespace(): string { meta.namespace }
    function ResourceVersion(): string { meta.resourceVersion }
  }

  // -----------------------------------------------------------------------
  // Validation patterns of the quantity fields.  The API server matches them
  // as unanchored regular-expression searches, so only the `$` anchor holds:
  // a string is admitted when some suffix of it matches the pattern body.

  /** `[0-9]+m?` matched against the whole of `t`. */
  predicate CpuBody(t: string)
  {
    || (|t| >= 1 && GoStrings.AllDigits(t))
    || (|t| >= 2 && t[|t| - 1] == 'm' && GoStrings.AllDigits(t[..|t| - 1]))
  }

  /** `[0-9]+m?$`: some suffix of `s` is digits, optionally followed by `m`. */
  predicate CpuAdmitted(s: string)
  {
    exists i :: 0 <= i < |s| && CpuBody(s[i..])
  }

  /** The memory power-of-ten and binary suffix letters. */
  predicate MemoryUnit(c: char)
  {
    c in "kKmMgGtTpPeE"
  }

  /** `[0-9]+([kKmMgGtTpPeE]i?)?` matched against the whole of `t`. */
  predicate MemoryBody(t: string)
  {
    || (|t| >= 1 && GoStrings.AllDigits(t))
    || (|t| >= 2 && MemoryUnit(t[|t| - 1]) && GoStrings.AllDigits(t[..|t| - 1]))
    || (|t| >= 3 && t[|t| - 1] == 'i' && MemoryUnit(t[|t| - 2]) && GoStrings.AllDigits(t[..|t| - 2]))
  }

  /** `[0-9]+([kKmMgGtTpPeE]i?)?$`. */
  predicate MemoryAdmitted(s: string)
  {
    exists i :: 0 <= i < |s| && MemoryBody(s[i..])
  }

  /** The endings `[0-9]+m?$` allows: a digit, or a digit and `m`. */
  predicate CpuEnding(s: string)
  {
    || (|s| >= 1 && GoStrings.IsDigit(s[|s| - 1]))
    || (|s| >= 2 && s[|s| - 1] == 'm' && GoStrings.IsDigit(s[|s| - 2]))
  }

  /** The endings `[0-9]+([kKmMgGtTpPeE]i?)?$` allows. */
  predicate MemoryEnding(s: string)
  {
    || (|s| >= 1 && GoStrings.IsDigit(s[|s| - 1]))
    || (|s| >= 2 && MemoryUnit(s[|s| - 1]) && GoStrings.IsDigit(s[|s| - 2]))
    || (|s| >= 3 && s[|s| - 1] == 'i' && MemoryUnit(s[|s| - 2]) && GoStrings.IsDigit(s[|s| - 3]))
  }

  lemma CpuBodyEnding(t: string)
    requires CpuBody(t)
    ensures CpuEnding(t)
  {
    if !(|t| >= 1 && GoStrings.AllDigits(t)) {
      var d := t[..|t| - 1];
      assert GoStrings.IsDigit(d[|d| - 1]);
    }
  }

  lemma MemoryBodyEnding(t: string)
    requires MemoryBody(t)
    ensures MemoryEnding(t)
  {
    if |t| >= 2 && MemoryUnit(t[|t| - 1]) && GoStrings.AllDigits(t[..|t| - 1]) {
      var d := t[..|t| - 1];
      assert GoStrings.IsDigit(d[|d| - 1]);
    } else if |t| >= 3 && t[|t| - 1] == 'i' && GoStrings.AllDigits(t[..|t| - 2]) {
      var d := t[..|t| - 2];
      assert GoStrings.IsDigit(d[|d| - 1]);
    }
  }

  /** An ending of a suffix is an ending of the whole string. */
  lemma CpuEndingOfSuffix(s: string, i: nat)
    requires i < |s| && CpuEnding(s[i..])
    ensures CpuEnding(s)
  {
    var t := s[i..];
    assert t[|t| - 1] == s[|s| - 1];
    if |t| >= 2 { assert t[|t| - 2] == s[|s| - 2]; }
  }

  lemma MemoryEndingOfSuffix(s: string, i: nat)
    requires i < |s| && MemoryEnding(s[i..])
    ensures MemoryEnding(s)
  {
    var t := s[i..];
    assert t[|t| - 1] == s[|s| - 1];
    if |t| >= 2 { assert t[|t| - 2] == s[|s| - 2]; }
    if |t| >= 3 { assert t[|t| - 3] == s[|s| - 3]; }
  }

  /** A string with an allowed CPU ending is admitted: its last one or two characters match. */
  lemma CpuEndingAdmitted(s: string)
    requires CpuEnding(s)
    ensures CpuAdmitted(s)
  {
    var n := |s|;
    if GoStrings.IsDigit(s[n - 1]) {
      var t := s[n - 1..];
      assert GoStrings.AllDigits(t);
      assert CpuBody(t);
    } else {
      var t := s[n - 2..];
      assert GoStrings.AllDigits(t[..1]);
      assert CpuBody(t);
    }
  }

  /** A string with an allowed memory ending is admitted. */
  lemma MemoryEndingAdmitted(s: string)
    requires MemoryEnding(s)
    ensures MemoryAdmitted(s)
  {
    var n := |s|;
    if GoStrings.IsDigit(s[n - 1]) {
      var t := s[n - 1..];
      assert GoStrings.AllDigits(t);
      assert MemoryBody(t);
    } else if MemoryUnit(s[n - 1]) && GoStrings.IsDigit(s[n - 2]) {
      var t := s[n - 2..];
      assert GoStrings.AllDigits(t[..1]);
      assert MemoryBody(t);
    } else {
      var t := s[n - 3..];
      assert GoStrings.AllDigits(t[..1]);
      assert MemoryBody(t);
    }
  }

  /**
    Because only the end is anchored, a CPU string is admitted exactly when it
    ends in a digit, or in a digit followed by `m`; what comes before is free.
  */
  lemma {:induction false} CpuAdmittedIff(s: string)
    ensures CpuAdmitted(s) <==> CpuEnding(s)
  {
    if CpuEnding(s) {
      CpuEndingAdmitted(s);
    }
    if CpuAdmitted(s) {
      var i :| 0 <= i < |s| && CpuBody(s[i..]);
      CpuBodyEnding(s[i..]);
      CpuEndingOfSuffix(s, i);
    }
  }

  /**
    A memory string is admitted exactly when it ends in a digit, in a digit
    and a unit letter, or in a digit, a unit letter and `i`.
  */
  lemma {:induction false} MemoryAdmittedIff(s: string)
    ensures MemoryAdmitted(s) <==> MemoryEnding(s)
  {
    if MemoryEnding(s) {
      MemoryEndingAdmitted(s);
    }
    if MemoryAdmitted(s) {
      var i :| 0 <= i < |s| && MemoryBody(s[i..]);
      MemoryBodyEnding(s[i..]);
      MemoryEndingOfSuffix(s, i);
    }
  }

  /** The missing `^` lets a CPU string with any prefix through, and stops a suffix. */
  lemma CpuPatternUnanchoredAtStart()
    ensures CpuAdmitted("x500m") && CpuAdmitted("500m") && !CpuAdmitted("500mx")
  {
    CpuAdmittedIff("x500m");
    CpuAdmittedIff("500m");
    CpuAdmittedIff("500mx");
  }
}

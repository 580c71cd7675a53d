/** Refinement-tagging configuration of AMReX's AMR core.

    - `AMRErrorTagInfo` is a builder whose setters each overwrite one field
      and hand back the same object, so calls can be chained.
    - `AMRErrorTag` copies such an info record and, for the threshold tests,
      keeps one threshold per AMR level in `m_value`: levels the user gave no
      value for inherit the last value given.
    - `ErrorList` is an append-only list of error records that can be
      cleared. */
module ErrorList {

  import opened Wrappers

  /** `std::numeric_limits<Real>::lowest()` and `max()` for double precision. */
  const RealLowest: real := -1.7976931348623157e308
  const RealMax: real := 1.7976931348623157e308

  /** A physical-space box. */
  datatype RealBox = RealBox(lo: (real, real, real), hi: (real, real, real))

  /** The default-constructed `RealBox`, which is empty. */
  const EmptyRealBox := RealBox((0.0, 0.0, 0.0), (-1.0, -1.0, -1.0))

  /** The value of an `AMRErrorTagInfo` record, as `AMRErrorTag` copies it. */
  datatype TagInfo = TagInfo(
    maxLevel: int,
    minTime: real,
    maxTime: real,
    realBox: RealBox,
    volumeWeighting: int,
    derefine: int)

  /** The record's default member initialisers. */
  const DefaultTagInfo := TagInfo(1000, RealLowest, RealMax, EmptyRealBox, 0, 0)

  class AMRErrorTagInfo {
    var m_max_level: int
    var m_min_time: real
    var m_max_time: real
    var m_realbox: RealBox
    var m_volume_weighting: int
    var m_derefine: int

    /** The record's current value. */
    function Value(): TagInfo
      reads this
    {
      TagInfo(m_max_level, m_min_time, m_max_time, m_realbox, m_volume_weighting, m_derefine)
    }

    constructor ()
      ensures Value() == DefaultTagInfo
      ensures m_max_level == 1000 && m_volume_weighting == 0 && m_derefine == 0
    {
      m_max_level := 1000;
      m_min_time := RealLowest;
      m_max_time := RealMax;
      m_realbox := EmptyRealBox;
      m_volume_weighting := 0;
      m_derefine := 0;
    }

    method SetMaxLevel(max_level: int) returns (self: AMRErrorTagInfo)
      modifies this
      ensures self == this
      ensures Value() == old(Value()).(maxLevel := max_level)
    {
      m_max_level := max_level;
      return this;
    }

    method SetMinTime(min_time: real) returns (self: AMRErrorTagInfo)
      modifies this
      ensures self == this
      ensures Value() == old(Value()).(minTime := min_time)
    {
      m_min_time := min_time;
      return this;
    }

    method SetMaxTime(max_time: real) returns (self: AMRErrorTagInfo)
      modifies this
      ensures self == this
      ensures Value() == old(Value()).(maxTime := max_time)
    {
      m_max_time := max_time;
      return this;
    }

    method SetRealBox(realbox: RealBox) returns (self: AMRErrorTagInfo)
      modifies this
      ensures self == this
      ensures Value() == old(Value()).(realBox := realbox)
    {
      m_realbox := realbox;
      return this;
    }

    method SetVolumeWeighting(volume_weighting: int) returns (self: AMRErrorTagInfo)
      modifies this
      ensures self == this
      ensures Value() == old(Value()).(volumeWeighting := volume_weighting)
    {
      m_volume_weighting := volume_weighting;
      return this;
    }

    method SetDerefine(derefine: int) returns (self: AMRErrorTagInfo)
      modifies this
      ensures self == this
      ensures Value() == old(Value()).(derefine := derefine)
    {
      m_derefine := derefine;
      return this;
    }
  }

  /** The tests an `AMRErrorTag` can apply. */
  datatype Test = Grad | RelGrad | Less | Greater | Vort | Box | User

  /** The identity of a user tagging functor (`UserFunc*`), which this model
      never calls. */
  datatype UserFunc = UserFunc(id: nat)

  /** The threshold of every AMR level below `maxLevel` given the user's
      per-level values: level `i` takes `value[i]` when the user supplied
      one, otherwise the last supplied value; values beyond `maxLevel` are
      dropped. */
  function LevelValues(value: seq<real>, maxLevel: nat): (m: seq<real>)
    requires |value| > 0
    ensures |m| == maxLevel
    ensures forall i :: 0 <= i < maxLevel && i < |value| ==> m[i] == value[i]
    ensures forall i :: |value| <= i < maxLevel ==> m[i] == value[|value| - 1]
  {
    if maxLevel <= |value| then value[..maxLevel]
    else LevelValues(value, maxLevel - 1) + [value[|value| - 1]]
  }

  /** One value for every level is the same as a single-element list: the
      scalar constructor is the list constructor with `{value}`. */
  lemma UniformLevelValues(v: real, maxLevel: nat)
    ensures forall i :: 0 <= i < maxLevel ==> LevelValues([v], maxLevel)[i] == v
  {
  }

  /** Raising the maximum level keeps the thresholds of the lower levels. */
  lemma {:induction false} LevelValuesPrefix(value: seq<real>, n: nat, n': nat)
    requires |value| > 0 && n <= n'
    ensures LevelValues(value, n) == LevelValues(value, n')[..n]
  {
    var a, b := LevelValues(value, n), LevelValues(value, n')[..n];
    assert |a| == |b|;
    forall i | 0 <= i < n
      ensures a[i] == b[i]
    {
    }
  }

  /** Repeating the last value has no effect: the last value already
      extends to every higher level. */
  lemma {:induction false} LevelValuesRepeatLast(value: seq<real>, maxLevel: nat)
    requires |value| > 0
    ensures LevelValues(value + [value[|value| - 1]], maxLevel) == LevelValues(value, maxLevel)
  {
    var value' := value + [value[|value| - 1]];
    var a, b := LevelValues(value', maxLevel), LevelValues(value, maxLevel);
    forall i | 0 <= i < maxLevel
      ensures a[i] == b[i]
    {
      if i < |value| {
        assert value'[i] == value[i];
      }
    }
  }

  class AMRErrorTag {
    /** The threshold of each AMR level. */
    var m_value: seq<real>
    var m_test: Test
    var m_userfunc: Option<UserFunc>
    var m_field: string
    var m_info: TagInfo
    var m_ngrow: int

    /** The default tag: a box test on no field, with no thresholds. */
    constructor Default(info: TagInfo)
      ensures m_test == Box && m_field == "" && m_info == info
      ensures m_value == [] && m_userfunc == None
    {
      m_test, m_field, m_info := Box, "", info;
      m_value, m_userfunc := [], None;
    }

    /** One threshold for every level below `info.maxLevel`. */
    constructor Uniform(value: real, test: Test, field: string, info: TagInfo)
      requires 0 <= info.maxLevel
      ensures m_test == test && m_field == field && m_info == info && m_userfunc == None
      ensures |m_value| == info.maxLevel
      ensures forall i :: 0 <= i < |m_value| ==> m_value[i] == value
      ensures m_value == LevelValues([value], info.maxLevel)
    {
      m_test, m_field, m_info, m_userfunc := test, field, info, None;
      var v: seq<real> := seq(info.maxLevel, _ => 0.0);
      var i := 0;
      while i < |v|
        invariant 0 <= i <= |v| == info.maxLevel
        invariant forall l :: 0 <= l < i ==> v[l] == value
      {
        v := v[i := value];
        i := i + 1;
      }
      m_value := v;
      UniformLevelValues(value, info.maxLevel);
    }

    /** Per-level thresholds: the user's values, truncated to
        `info.maxLevel` levels, with the last value extended upward. */
    constructor PerLevel(value: seq<real>, test: Test, field: string, info: TagInfo)
      requires |value| > 0
      requires 0 <= info.maxLevel
      ensures m_test == test && m_field == field && m_info == info && m_userfunc == None
      ensures m_value == LevelValues(value, info.maxLevel)
    {
      m_test, m_field, m_info, m_userfunc := test, field, info, None;
      var v: seq<real> := seq(info.maxLevel, _ => 0.0);
      var i := 0;
      while i < |v| && i < |value|
        invariant 0 <= i <= |v| == info.maxLevel && i <= |value|
        invariant forall l :: 0 <= l < i ==> v[l] == value[l]
      {
        v := v[i := value[i]];
        i := i + 1;
      }
      i := |value|;
      while i < |v|
        invariant |v| == info.maxLevel && |value| <= i
        invariant forall l :: 0 <= l < |v| && l < |value| ==> v[l] == value[l]
        invariant forall l :: |value| <= l < i && l < |v| ==> v[l] == value[|value| - 1]
      {
        v := v[i := value[|value| - 1]];
        i := i + 1;
      }
      m_value := v;
    }

    /** A tag driven by a user functor, with an explicit ghost-cell count. */
    constructor WithUserFunc(userfunc: Option<UserFunc>, field: string, ngrow: int, info: TagInfo)
      ensures m_userfunc == userfunc && m_field == field && m_info == info && m_ngrow == ngrow
      ensures m_value == []
      ensures NGrow() == ngrow && Field() == field
    {
      m_userfunc, m_field, m_info, m_ngrow := userfunc, field, info, ngrow;
      m_value := [];
    }

    function NGrow(): int
      reads this
    {
      m_ngrow
    }

    function Field(): string
      reads this
    {
      m_field
    }
  }

  /** The kinds of error estimation of an `ErrorRec`. */
  datatype ErrorType = Special | Standard | UseAverage

  /** The tagging callback of an `ErrorRec`: either kind of functor, by
      identity only. */
  datatype TagFunc = ErrorFunc(id: nat) | ErrorFunc2(id: nat)

  /** An error record: the derived quantity, its extra ghost zones, the kind
      of estimation and the callback. */
  datatype ErrorRec = ErrorRec(name: string, nGrow: int, errType: ErrorType, func: TagFunc)

  class ErrorList {
    var vec: seq<ErrorRec>

    constructor ()
      ensures vec == []
    {
      vec := [];
    }

    function Size(): nat
      reads this
    {
      |vec|
    }

    /** `operator[]`: the kth record. */
    function Get(k: int): ErrorRec
      reads this
      requires 0 <= k < Size()
    {
      vec[k]
    }

    /** Both `add` overloads: append a record built from the arguments. */
    method Add(name: string, nextra: int, typ: ErrorType, func: TagFunc)
      modifies this
      ensures vec == old(vec) + [ErrorRec(name, nextra, typ, func)]
      ensures Size() == old(Size()) + 1
      ensures Get(Size() - 1) == ErrorRec(name, nextra, typ, func)
      ensures forall k :: 0 <= k < old(Size()) ==> Get(k) == old(vec)[k]
    {
      vec := vec + [ErrorRec(name, nextra, typ, func)];
    }

    /** `clear(rs0)`: empties the list whichever `rs0` is. */
    method Clear(rs0: bool)
      modifies this
      ensures vec == [] && Size() == 0
    {
      vec := [];
      if rs0 {
        vec := [];
      }
    }
  }
}

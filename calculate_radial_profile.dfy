/** The constructor of CalculateRadialProfile: it stores the image, the center mapping and the
    angle-range mapping, and copies the coordinates and the sector bounds out of the two mappings,
    raising ValueError when a non-empty mapping lacks one of the keys it needs. */
module SectorizedRadialProfile {
  import opened Wrappers

  /** The keys looked up in a non-empty `center`, in lookup order. */
  const CENTER_KEYS: seq<string> := ["x0", "y0"]

  /** The keys looked up in a non-empty `angle_range`, in lookup order. */
  const ANGLE_RANGE_KEYS: seq<string> := ["from", "to"]

  /** The only exception construction raises. */
  datatype InitError = ValueError

  /** The attributes of a constructed object. `data` is opaque: it is stored and never inspected.
      An attribute that construction never assigns is None. */
  datatype Profile<D, V> = Profile(
    data: seq<D>,
    center: map<string, V>,
    angleRange: map<string, V>,
    x0: Option<V>,
    y0: Option<V>,
    fromAngle: Option<V>,
    toAngle: Option<V>)

  /** The attributes of an object before any of them is assigned. The four copied attributes are
      None; `data`, `center` and `angleRange` hold placeholder values, indistinguishable from an
      assigned empty value, which `__init__` overwrites first, before any step can fail. */
  function Unassigned<D, V>(): Profile<D, V> {
    Profile([], map[], map[], None, None, None, None)
  }

  // ---------------------------------------------------------------------------------------------
  // Specification: what a successful construction leaves behind

  /** Every key of `keys` is in `m`. */
  predicate HasAll<V>(m: map<string, V>, keys: seq<string>) {
    forall i :: 0 <= i < |keys| ==> keys[i] in m
  }

  /** A mapping construction accepts: an empty one (skipped), or one holding every required key. */
  predicate Acceptable<V>(m: map<string, V>, keys: seq<string>) {
    |m| == 0 || HasAll(m, keys)
  }

  /** The attribute `field` for key `k` agrees with the mapping `m` it comes from: unassigned when
      `m` is empty, and otherwise holding exactly `m[k]`. */
  ghost predicate Tracks<V>(m: map<string, V>, k: string, field: Option<V>) {
    if |m| == 0 then field == None else k in m && field == Some(m[k])
  }

  /** The attributes of a successfully constructed object: the four copied attributes agree with
      the mappings they were read from. */
  ghost predicate Consistent<D, V>(p: Profile<D, V>) {
    && Tracks(p.center, "x0", p.x0)
    && Tracks(p.center, "y0", p.y0)
    && Tracks(p.angleRange, "from", p.fromAngle)
    && Tracks(p.angleRange, "to", p.toAngle)
  }

  // ---------------------------------------------------------------------------------------------
  // Reference definition of construction

  /** Subscripts `m` with each of `keys` in turn; the first key that is missing raises KeyError,
      which carries that key. */
  function LookUp<V>(m: map<string, V>, keys: seq<string>): (r: Result<seq<V>, string>)
    ensures r.Ok? <==> HasAll(m, keys)
    ensures r.Ok? ==> |r.value| == |keys| && forall i :: 0 <= i < |keys| ==> r.value[i] == m[keys[i]]
    ensures r.Err? ==>
      exists i :: 0 <= i < |keys| && keys[i] == r.error && keys[i] !in m && HasAll(m, keys[..i])
  {
    if keys == [] then Ok([])
    else if keys[0] !in m then
      assert keys[..0] == [];
      Err(keys[0])
    else
      match LookUp(m, keys[1..])
      case Ok(vs) => Ok([m[keys[0]]] + vs)
      case Err(k) =>
        assert HasAll(m, [keys[0]]);
        ghost var i :| 0 <= i < |keys[1..]| && keys[1..][i] == k && k !in m && HasAll(m, keys[1..][..i]);
        assert keys[..i + 1] == [keys[0]] + keys[1..][..i];
        Err(k)
  }

  /** One guarded block of construction: an empty mapping is skipped (None); otherwise every key
      is looked up, and a failed lookup becomes ValueError. */
  function TryLookUp<V>(m: map<string, V>, keys: seq<string>): (r: Result<Option<seq<V>>, InitError>)
    ensures r.Ok? <==> Acceptable(m, keys)
    ensures r == Ok(None) <==> |m| == 0
    ensures r.Ok? && r.value.Some? ==>
      |r.value.value| == |keys| && forall i :: 0 <= i < |keys| ==> r.value.value[i] == m[keys[i]]
  {
    if |m| == 0 then Ok(None)
    else
      match LookUp(m, keys)
      case Ok(vs) => Ok(Some(vs))
      case Err(_) => Err(ValueError)
  }

  /** The `i`-th looked-up value, or None when the block was skipped. */
  function Nth<V>(vs: Option<seq<V>>, i: nat): Option<V>
    requires vs.Some? ==> i < |vs.value|
  {
    if vs.Some? then Some(vs.value[i]) else None
  }

  /** `CalculateRadialProfile(data, center, angle_range)`: the attributes of the new object, or
      the error construction raises. */
  function Construct<D, V>(data: seq<D>, center: map<string, V>, angleRange: map<string, V>)
    : (r: Result<Profile<D, V>, InitError>)
    ensures r.Ok? <==> Acceptable(center, CENTER_KEYS) && Acceptable(angleRange, ANGLE_RANGE_KEYS)
    ensures r.Err? ==> r.error == ValueError
    ensures r.Ok? ==>
      && r.value.data == data
      && r.value.center == center
      && r.value.angleRange == angleRange
      && Consistent(r.value)
  {
    match TryLookUp(center, CENTER_KEYS)
    case Err(e) => Err(e)
    case Ok(xy) =>
      match TryLookUp(angleRange, ANGLE_RANGE_KEYS)
      case Err(e) => Err(e)
      case Ok(ft) =>
        Ok(Profile(data, center, angleRange, Nth(xy, 0), Nth(xy, 1), Nth(ft, 0), Nth(ft, 1)))
  }

  // ---------------------------------------------------------------------------------------------
  // The object

  class CalculateRadialProfile<D, V> {
    var data: seq<D>
    var center: map<string, V>
    var angleRange: map<string, V>
    var x0: Option<V>
    var y0: Option<V>
    var fromAngle: Option<V>
    var toAngle: Option<V>

    /** The object's attributes as a value. */
    function State(): Profile<D, V>
      reads this
    {
      Profile(data, center, angleRange, x0, y0, fromAngle, toAngle)
    }

    /** The attributes agree with the stored mappings. This holds when a successful construction
        returns; the stored mappings are the caller's own objects in the source, so a later change
        through the caller's reference can break it. */
    ghost predicate Valid()
      reads this
    {
      Consistent(State())
    }

    /** Allocation, before `__init__` runs: nothing is assigned yet. */
    constructor Blank()
      ensures State() == Unassigned()
    {
      data, center, angleRange := [], map[], map[];
      x0, y0, fromAngle, toAngle := None, None, None, None;
    }

    /** `__init__`: assigns the three arguments, then, for each non-empty mapping, looks up its two
        keys and assigns them to the two attributes, raising ValueError at the first missing key.
        An attribute a step does not reach keeps the value it had. */
    method Init(data: seq<D>, center: map<string, V>, angleRange: map<string, V>)
      returns (outcome: Outcome<InitError>)
      modifies this
      ensures outcome.Pass? <==> Construct(data, center, angleRange).Ok?
      ensures outcome.Fail? ==> outcome.error == ValueError
      ensures this.data == data && this.center == center && this.angleRange == angleRange
      ensures x0 == (if |center| > 0 && "x0" in center && "y0" in center then Some(center["x0"]) else old(x0))
      ensures y0 == (if |center| > 0 && "x0" in center && "y0" in center then Some(center["y0"]) else old(y0))
      ensures fromAngle == (if outcome.Pass? && |angleRange| > 0 then Some(angleRange["from"]) else old(fromAngle))
      ensures toAngle == (if outcome.Pass? && |angleRange| > 0 then Some(angleRange["to"]) else old(toAngle))
    {
      this.data := data;
      this.center := center;
      this.angleRange := angleRange;

      if |center| > 0 {
        if "x0" !in center {
          return Fail(ValueError);
        }
        var x := center["x0"];
        if "y0" !in center {
          return Fail(ValueError);
        }
        var y := center["y0"];
        x0, y0 := Some(x), Some(y);
      }

      if |angleRange| > 0 {
        if "from" !in angleRange {
          return Fail(ValueError);
        }
        var f := angleRange["from"];
        if "to" !in angleRange {
          return Fail(ValueError);
        }
        var t := angleRange["to"];
        fromAngle, toAngle := Some(f), Some(t);
      }
      return Pass;
    }

    /** The call `CalculateRadialProfile(data, center, angle_range)`: allocates an object and runs
        `__init__` on it, yielding the object or the error it raised. */
    static method New(data: seq<D>, center: map<string, V>, angleRange: map<string, V>)
      returns (r: Result<CalculateRadialProfile<D, V>, InitError>)
      ensures r.Ok? <==> Construct(data, center, angleRange).Ok?
      ensures r.Err? ==> r.error == ValueError
      ensures r.Ok? ==> fresh(r.value) && r.value.Valid()
      ensures r.Ok? ==> r.value.State() == Construct(data, center, angleRange).value
    {
      var o := new CalculateRadialProfile<D, V>.Blank();
      var outcome := o.Init(data, center, angleRange);
      if outcome.Fail? {
        return Err(outcome.error);
      }
      return Ok(o);
    }

    /** The call `CalculateRadialProfile()` with every argument defaulted: the object for the
        construction that `DefaultConstruction` shows succeeds with an empty image, two empty
        mappings and nothing else assigned. */
    static method NewDefault() returns (o: CalculateRadialProfile<D, V>)
      ensures fresh(o) && o.Valid()
      ensures o.data == [] && o.center == map[] && o.angleRange == map[]
      ensures o.x0 == None && o.y0 == None && o.fromAngle == None && o.toAngle == None
    {
      DefaultConstruction<D, V>();
      var r := New([], map[], map[]);
      o := r.value;
    }
  }

  // ---------------------------------------------------------------------------------------------
  // Properties of construction

  /** Looking up keys is unaffected by an extra entry under a key that is not looked up. */
  lemma {:induction false} LookUpIgnoresOtherKeys<V>(m: map<string, V>, keys: seq<string>, k: string, v: V)
    requires k !in keys
    ensures LookUp(m[k := v], keys) == LookUp(m, keys)
  {
    if keys != [] {
      assert keys[0] != k;
      LookUpIgnoresOtherKeys(m, keys[1..], k, v);
    }
  }

  /** With no arguments, construction succeeds with an empty image, two empty mappings and no
      coordinates or sector bounds. */
  lemma DefaultConstruction<D, V>()
    ensures Construct<D, V>([], map[], map[]) == Ok(Unassigned())
  {
  }

  /** A successful construction is determined by its arguments: every consistent set of
      attributes is exactly what construction from its stored arguments produces. */
  lemma ConsistentIsConstructed<D, V>(p: Profile<D, V>)
    requires Consistent(p)
    ensures Construct(p.data, p.center, p.angleRange) == Ok(p)
  {
  }

  /** Only the presence of the keys is checked: any values, including a sector whose `from`
      exceeds its `to`, are copied as they are. */
  lemma ValuesUnchecked<D, V>(data: seq<D>, x: V, y: V, from: V, to: V)
    ensures Construct(data, map["x0" := x, "y0" := y], map["from" := from, "to" := to])
         == Ok(Profile(data, map["x0" := x, "y0" := y], map["from" := from, "to" := to],
                       Some(x), Some(y), Some(from), Some(to)))
  {
  }

  /** An extra entry in a non-empty `center`, under a key other than `x0` and `y0`, changes
      neither whether construction succeeds nor the coordinates it copies. */
  lemma ExtraCenterKeyIgnored<D, V>(data: seq<D>, center: map<string, V>, angleRange: map<string, V>, k: string, v: V)
    requires |center| > 0 && k != "x0" && k != "y0"
    ensures Construct(data, center[k := v], angleRange).Ok? == Construct(data, center, angleRange).Ok?
    ensures Construct(data, center[k := v], angleRange).Ok? ==>
      && Construct(data, center[k := v], angleRange).value.x0 == Construct(data, center, angleRange).value.x0
      && Construct(data, center[k := v], angleRange).value.y0 == Construct(data, center, angleRange).value.y0
  {
  }

  /** An extra entry in a non-empty `angle_range`, under a key other than `from` and `to`,
      changes neither whether construction succeeds nor the sector bounds it copies. */
  lemma ExtraAngleRangeKeyIgnored<D, V>(data: seq<D>, center: map<string, V>, angleRange: map<string, V>, k: string, v: V)
    requires |angleRange| > 0 && k != "from" && k != "to"
    ensures Construct(data, center, angleRange[k := v]).Ok? == Construct(data, center, angleRange).Ok?
    ensures Construct(data, center, angleRange[k := v]).Ok? ==>
      && Construct(data, center, angleRange[k := v]).value.fromAngle == Construct(data, center, angleRange).value.fromAngle
      && Construct(data, center, angleRange[k := v]).value.toAngle == Construct(data, center, angleRange).value.toAngle
  {
  }

  /** A center holding `x0` but `x1` instead of `y0` is rejected. */
  lemma CenterWithoutY0Rejected()
    ensures Construct<int, int>([], map["x0" := 10, "x1" := -1], map[]) == Err(ValueError)
  {
  }

  /** An angle range holding `from` but `too` instead of `to` is rejected. */
  lemma AngleRangeWithoutToRejected()
    ensures Construct<int, int>([], map[], map["from" := 10, "too" := 20]) == Err(ValueError)
  {
  }
}

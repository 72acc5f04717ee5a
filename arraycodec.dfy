/**
 * The JSON side of the export (Export.py): `NumpyEncoder.default`, which tags a numpy
 * array with a sentinel key, and `numpy_decoder_hook`, which turns tagged objects back
 * into arrays. Values are the Python object trees `json.dump` walks and `json.load`
 * builds; the text in between is not modelled.
 */
module ArrayCodec {
  import opened Wrappers
  import opened NdArrays

  /** A Python value as `json` sees it; dicts keep their insertion order. */
  datatype Value =
    | VNone
    | VBool(b: bool)
    | VNum(n: real)
    | VStr(s: string)
    | VList(items: seq<Value>)
    | VTuple(items: seq<Value>)
    | VDict(fields: seq<(string, Value)>)
    | VArray(a: NdArray)

  const Tag := "__nparray__"
  const DataKey := "__npdata__"

  /** A tree `json.dump` can write without help: no numpy array anywhere in it. */
  predicate IsJson(v: Value)
  {
    match v
    case VArray(_) => false
    case VTuple(_) => false
    case VList(items) => forall i :: 0 <= i < |items| ==> IsJson(items[i])
    case VDict(fields) => forall i :: 0 <= i < |fields| ==> IsJson(fields[i].1)
    case _ => true
  }

  /** No dict in the tree uses the sentinel key, so the decoder hook leaves every dict alone. */
  predicate TagFree(v: Value)
  {
    match v
    case VList(items) => forall i :: 0 <= i < |items| ==> TagFree(items[i])
    case VTuple(items) => forall i :: 0 <= i < |items| ==> TagFree(items[i])
    case VDict(fields) => !HasKey(fields, Tag) && forall i :: 0 <= i < |fields| ==> TagFree(fields[i].1)
    case _ => true
  }

  predicate HasKey(fields: seq<(string, Value)>, key: string)
  {
    exists i :: 0 <= i < |fields| && fields[i].0 == key
  }

  /** `d[key]` for a dict built from JSON pairs: the last binding of `key` wins; `None` is a KeyError. */
  function Lookup(fields: seq<(string, Value)>, key: string): (r: Option<Value>)
    ensures r.Some? <==> HasKey(fields, key)
    ensures r.Some? ==> exists i :: 0 <= i < |fields| && fields[i] == (key, r.value) && LastBinding(fields, i)
  {
    if fields == [] then None
    else if fields[|fields| - 1].0 == key then
      assert LastBinding(fields, |fields| - 1);
      Some(fields[|fields| - 1].1)
    else
      var init := fields[..|fields| - 1];
      var r := Lookup(init, key);
      assert forall i :: 0 <= i < |fields| - 1 ==> init[i] == fields[i];
      assert r.Some? ==> exists i :: 0 <= i < |fields| && fields[i] == (key, r.value) && LastBinding(fields, i) by {
        if r.Some? {
          var i :| 0 <= i < |init| && init[i] == (key, r.value) && LastBinding(init, i);
          assert LastBinding(fields, i);
        }
      }
      r
  }

  /** No later pair of `fields` rebinds the key of pair `i`. */
  predicate LastBinding(fields: seq<(string, Value)>, i: nat)
    requires i < |fields|
  {
    forall j :: i < j < |fields| ==> fields[j].0 != fields[i].0
  }

  /** The first `k` consecutive pieces of length `n` of `data`. */
  function Chunks(data: seq<real>, k: nat, n: nat): (r: seq<seq<real>>)
    requires |data| == k * n
    ensures |r| == k && forall i :: 0 <= i < k ==> |r[i]| == n
  {
    if k == 0 then [] else [data[..n]] + Chunks(data[n..], k - 1, n)
  }

  /** The pieces laid end to end. */
  function Concat(parts: seq<seq<real>>): seq<real>
  {
    if parts == [] then [] else parts[0] + Concat(parts[1..])
  }

  /** `a.tolist()`: a number for a 0-d array, otherwise one nested list per leading index. */
  function ToList(a: NdArray): (r: Value)
    ensures IsJson(r) && TagFree(r)
    decreases |a.shape|
  {
    if a.shape == [] then VNum(a.data[0])
    else
      var n := Product(a.shape[1..]);
      var parts := Chunks(a.data, a.shape[0], n);
      VList(seq(a.shape[0], i requires 0 <= i < a.shape[0] => ToList(ArrayRep(a.shape[1..], parts[i]))))
  }

  /**
   * `np.array(v)` for a decoded JSON value: a number is a 0-d array; a list of
   * equally shaped arrays stacks along a new leading axis; an empty list is the
   * shape-(0,) array. A ragged list, or any other leaf, is `None`.
   */
  function FromList(v: Value): (r: Option<NdArray>)
    ensures v.VNum? ==> r == Some(ArrayRep([], [v.n]))
    ensures r.Some? ==> v.VNum? || v.VList?
    ensures r.Some? && v.VList? ==> |r.value.shape| > 0 && r.value.shape[0] == |v.items|
  {
    match v
    case VNum(x) => Some(ArrayRep([], [x]))
    case VList(items) =>
      if |items| == 0 then Some(ArrayRep([0], []))
      else
        var parts := seq(|items|, i requires 0 <= i < |items| => FromList(items[i]));
        if parts[0].Some? && forall i :: 0 <= i < |parts| ==> parts[i].Some? && parts[i].value.shape == parts[0].value.shape then
          var inner := parts[0].value.shape;
          var datas := seq(|parts|, i requires 0 <= i < |parts| => parts[i].value.data);
          ConcatLength(datas, Product(inner));
          assert ([|items|] + inner)[1..] == inner;
          Some(ArrayRep([|items|] + inner, Concat(datas)))
        else None
    case _ => None
  }

  /** `NumpyEncoder.default` on an array: the sentinel-tagged dict that replaces it in the JSON. */
  function Default(a: NdArray): (r: Value)
    ensures IsJson(r) && r.VDict? && HasKey(r.fields, Tag)
    ensures Lookup(r.fields, DataKey) == Some(ToList(a))
  {
    var fields := [(Tag, VBool(true)), (DataKey, ToList(a))];
    assert fields[0].0 == Tag && fields[1].0 == DataKey && fields[..1] == [fields[0]];
    VDict(fields)
  }

  /**
   * `numpy_decoder_hook`, called on every decoded dict: a dict holding the sentinel
   * becomes the array of its data field (`None` when that field is missing or is no
   * array), any other dict is returned as it is.
   */
  function DecoderHook(fields: seq<(string, Value)>): (r: Option<Value>)
    ensures !HasKey(fields, Tag) ==> r == Some(VDict(fields))
    ensures HasKey(fields, Tag) ==> r.None? || r.value.VArray?
  {
    if HasKey(fields, Tag) then
      match Lookup(fields, DataKey)
      case None => None
      case Some(d) =>
        match FromList(d)
        case None => None
        case Some(a) => Some(VArray(a))
    else Some(VDict(fields))
  }

  /**
   * `json.dump(v, cls=NumpyEncoder)` as a tree: every array replaced by its tagged
   * dict, and a tuple written as a JSON array like a list.
   */
  function Encode(v: Value): (r: Value)
    ensures IsJson(r)
  {
    match v
    case VList(items) => VList(seq(|items|, i requires 0 <= i < |items| => Encode(items[i])))
    case VTuple(items) => VList(seq(|items|, i requires 0 <= i < |items| => Encode(items[i])))
    case VDict(fields) => VDict(seq(|fields|, i requires 0 <= i < |fields| => (fields[i].0, Encode(fields[i].1))))
    case VArray(a) => Default(a)
    case _ => v
  }

  /**
   * `json.load(f, object_hook=numpy_decoder_hook)` as a tree: children first, then
   * the hook on each dict. A numpy array or a tuple is not JSON, so meeting one is
   * `None`; what comes back holds lists where the dumped tree held tuples.
   */
  function Decode(v: Value): (r: Option<Value>)
    ensures r.Some? ==> IsJson(v) && TupleFree(r.value)
  {
    match v
    case VList(items) =>
      var ds := seq(|items|, i requires 0 <= i < |items| => Decode(items[i]));
      if forall i :: 0 <= i < |ds| ==> ds[i].Some? then
        assert forall i :: 0 <= i < |items| ==> ds[i] == Decode(items[i]) && ds[i].Some?;
        Some(VList(seq(|ds|, i requires 0 <= i < |ds| => ds[i].value)))
      else None
    case VDict(fields) =>
      var ds := seq(|fields|, i requires 0 <= i < |fields| => Decode(fields[i].1));
      if forall i :: 0 <= i < |ds| ==> ds[i].Some? then
        assert forall i :: 0 <= i < |fields| ==> ds[i] == Decode(fields[i].1) && ds[i].Some?;
        DecoderHook(seq(|ds|, i requires 0 <= i < |ds| => (fields[i].0, ds[i].value)))
      else None
    case VArray(_) => None
    case VTuple(_) => None
    case _ => Some(v)
  }

  /** No tuple anywhere in the tree: the trees `json.load` builds. */
  predicate TupleFree(v: Value)
  {
    match v
    case VTuple(_) => false
    case VList(items) => forall i :: 0 <= i < |items| ==> TupleFree(items[i])
    case VDict(fields) => forall i :: 0 <= i < |fields| ==> TupleFree(fields[i].1)
    case _ => true
  }

  /** The tree with every tuple turned into a list: what a JSON round trip gives back for it. */
  function TuplesAsLists(v: Value): (r: Value)
    ensures TupleFree(r)
    ensures r.VList? <==> v.VList? || v.VTuple?
  {
    match v
    case VList(items) => VList(seq(|items|, i requires 0 <= i < |items| => TuplesAsLists(items[i])))
    case VTuple(items) => VList(seq(|items|, i requires 0 <= i < |items| => TuplesAsLists(items[i])))
    case VDict(fields) => VDict(seq(|fields|, i requires 0 <= i < |fields| => (fields[i].0, TuplesAsLists(fields[i].1))))
    case _ => v
  }

  /** Every axis but the last is non-empty: the shapes whose `tolist()` determines them. */
  predicate ShapeRecoverable(shape: seq<nat>)
  {
    forall i :: 0 <= i < |shape| - 1 ==> shape[i] > 0
  }

  /** Every array in the tree has a recoverable shape. */
  predicate ArraysRecoverable(v: Value)
  {
    match v
    case VArray(a) => ShapeRecoverable(a.shape)
    case VList(items) => forall i :: 0 <= i < |items| ==> ArraysRecoverable(items[i])
    case VTuple(items) => forall i :: 0 <= i < |items| ==> ArraysRecoverable(items[i])
    case VDict(fields) => forall i :: 0 <= i < |fields| ==> ArraysRecoverable(fields[i].1)
    case _ => true
  }

  lemma {:induction false} ConcatLength(parts: seq<seq<real>>, n: nat)
    requires forall i :: 0 <= i < |parts| ==> |parts[i]| == n
    ensures |Concat(parts)| == |parts| * n
  {
    if parts != [] {
      ConcatLength(parts[1..], n);
    }
  }

  lemma {:induction false} ConcatChunks(data: seq<real>, k: nat, n: nat)
    requires |data| == k * n
    ensures Concat(Chunks(data, k, n)) == data
  {
    if k > 0 {
      assert k * n == (k - 1) * n + n;
      var rest := data[n..];
      ConcatChunks(rest, k - 1, n);
      var cs := Chunks(data, k, n);
      assert cs[0] == data[..n] && cs[1..] == Chunks(rest, k - 1, n);
      assert data == data[..n] + rest;
    }
  }

  /** A non-empty list whose items all rebuild to arrays of one shape stacks them along a new axis. */
  lemma FromListStacks(items: seq<Value>, inner: seq<nat>, chunks: seq<seq<real>>)
    requires |items| > 0 && |chunks| == |items|
    requires forall i :: 0 <= i < |chunks| ==> |chunks[i]| == Product(inner)
    requires forall i :: 0 <= i < |items| ==> FromList(items[i]) == Some(ArrayRep(inner, chunks[i]))
    ensures |Concat(chunks)| == Product([|items|] + inner)
    ensures FromList(VList(items)) == Some(ArrayRep([|items|] + inner, Concat(chunks)))
  {
    ConcatLength(chunks, Product(inner));
    assert ([|items|] + inner)[1..] == inner;
    var parts := seq(|items|, i requires 0 <= i < |items| => FromList(items[i]));
    var datas := seq(|parts|, i requires 0 <= i < |parts| => parts[i].value.data);
    assert datas == chunks;
  }

  /** `np.array(a.tolist())` rebuilds `a`, shape included, whenever only the last axis may be empty. */
  lemma {:induction false} FromListToList(a: NdArray)
    requires ShapeRecoverable(a.shape)
    ensures FromList(ToList(a)) == Some(a)
    decreases |a.shape|
  {
    if a.shape != [] {
      var k, inner := a.shape[0], a.shape[1..];
      var n := Product(inner);
      var chunks := Chunks(a.data, k, n);
      var items := ToList(a).items;
      if k == 0 {
        assert inner == [];
        assert a.shape == [0] && a.data == [];
        assert ToList(a) == VList([]);
      } else {
        forall i | 0 <= i < k
          ensures FromList(items[i]) == Some(ArrayRep(inner, chunks[i]))
        {
          var b: NdArray := ArrayRep(inner, chunks[i]);
          assert items[i] == ToList(b);
          FromListToList(b);
        }
        FromListStacks(items, inner, chunks);
        ConcatChunks(a.data, k, n);
        assert a.shape == [k] + inner;
      }
    } else {
      assert a.data == [a.data[0]];
    }
  }

  /** An array with an empty leading axis and a further axis comes back with the further axis lost. */
  lemma EmptyLeadingAxisCollapses()
    ensures FromList(ToList(ArrayRep([0, 3], []))) == Some(ArrayRep([0], []))
  {
    assert Product([0, 3]) == 0;
  }

  /** A JSON tree without the sentinel decodes to itself: the hook passes every dict through. */
  lemma {:induction false} DecodePassThrough(v: Value)
    requires IsJson(v) && TagFree(v)
    ensures Decode(v) == Some(v)
  {
    match v
    case VList(items) =>
      forall i | 0 <= i < |items| ensures Decode(items[i]) == Some(items[i]) {
        DecodePassThrough(items[i]);
      }
      var ds := seq(|items|, i requires 0 <= i < |items| => Decode(items[i]));
      assert seq(|ds|, i requires 0 <= i < |ds| => ds[i].value) == items;
    case VDict(fields) =>
      forall i | 0 <= i < |fields| ensures Decode(fields[i].1) == Some(fields[i].1) {
        DecodePassThrough(fields[i].1);
      }
      var ds := seq(|fields|, i requires 0 <= i < |fields| => Decode(fields[i].1));
      assert seq(|ds|, i requires 0 <= i < |ds| => (fields[i].0, ds[i].value)) == fields;
    case _ =>
  }

  /** A tagged dict whose data is plain JSON reaches the hook with its fields unchanged. */
  lemma DecodeTagged(data: Value)
    requires IsJson(data) && TagFree(data)
    ensures Decode(VDict([(Tag, VBool(true)), (DataKey, data)])) == DecoderHook([(Tag, VBool(true)), (DataKey, data)])
  {
    var fields := [(Tag, VBool(true)), (DataKey, data)];
    DecodePassThrough(data);
    var ds := seq(|fields|, i requires 0 <= i < |fields| => Decode(fields[i].1));
    assert seq(|ds|, i requires 0 <= i < |ds| => (fields[i].0, ds[i].value)) == fields;
  }

  /** The hook turns the encoder's tagged dict back into the array. */
  lemma DecodeDefault(a: NdArray)
    requires ShapeRecoverable(a.shape)
    ensures Decode(Default(a)) == Some(VArray(a))
  {
    var fields := Default(a).fields;
    DecodeTagged(ToList(a));
    assert HasKey(fields, Tag) by { assert fields[0].0 == Tag; }
    assert Lookup(fields, DataKey) == Some(ToList(a));
    FromListToList(a);
  }

  /**
   * Decoding what the encoder wrote gives the original tree back, arrays and shapes
   * included, provided no dict of its own uses the sentinel key; only its tuples come
   * back as lists.
   */
  lemma {:induction false} DecodeEncode(v: Value)
    requires TagFree(v) && ArraysRecoverable(v)
    ensures Decode(Encode(v)) == Some(TuplesAsLists(v))
  {
    match v
    case VList(items) =>
      var e := Encode(v).items;
      forall i | 0 <= i < |items| ensures Decode(e[i]) == Some(TuplesAsLists(items[i])) {
        DecodeEncode(items[i]);
      }
      var ds := seq(|e|, i requires 0 <= i < |e| => Decode(e[i]));
      assert seq(|ds|, i requires 0 <= i < |ds| => ds[i].value) == TuplesAsLists(v).items;
    case VTuple(items) =>
      var e := Encode(v).items;
      forall i | 0 <= i < |items| ensures Decode(e[i]) == Some(TuplesAsLists(items[i])) {
        DecodeEncode(items[i]);
      }
      var ds := seq(|e|, i requires 0 <= i < |e| => Decode(e[i]));
      assert seq(|ds|, i requires 0 <= i < |ds| => ds[i].value) == TuplesAsLists(v).items;
    case VDict(fields) =>
      var e := Encode(v).fields;
      var t := TuplesAsLists(v).fields;
      forall i | 0 <= i < |fields| ensures e[i].0 == fields[i].0 && Decode(e[i].1) == Some(t[i].1) {
        DecodeEncode(fields[i].1);
      }
      var ds := seq(|e|, i requires 0 <= i < |e| => Decode(e[i].1));
      assert seq(|ds|, i requires 0 <= i < |ds| => (e[i].0, ds[i].value)) == t;
      assert !HasKey(t, Tag) by {
        assert forall i :: 0 <= i < |t| ==> t[i].0 == fields[i].0;
      }
    case VArray(a) =>
      DecodeDefault(a);
    case _ =>
  }

  /** A tree without tuples is its own round-trip image, so for it the round trip is exact. */
  lemma {:induction false} TuplesAsListsTupleFree(v: Value)
    requires TupleFree(v)
    ensures TuplesAsLists(v) == v
  {
    match v
    case VList(items) =>
      forall i | 0 <= i < |items| ensures TuplesAsLists(items[i]) == items[i] {
        TuplesAsListsTupleFree(items[i]);
      }
      assert TuplesAsLists(v).items == items;
    case VDict(fields) =>
      forall i | 0 <= i < |fields| ensures TuplesAsLists(fields[i].1) == fields[i].1 {
        TuplesAsListsTupleFree(fields[i].1);
      }
      assert TuplesAsLists(v).fields == fields;
    case _ =>
  }
}

/** The pairing of event attributes done before an event is emitted from
    a realm (emit_event.go): a flat list of strings, read as key, value,
    key, value, ..., becomes a list of key/value attributes. */
module EmitEvent {
  import opened Wrappers

  /** errInvalidGnoEventAttrs. */
  const ErrInvalidGnoEventAttrs: string := "cannot pair attributes due to odd count"

  datatype EventAttribute = EventAttribute(key: string, value: string)

  /** The flat list a list of attributes comes from: each key followed by
      its value. */
  function Flatten(pairs: seq<EventAttribute>): (r: seq<string>)
    ensures |r| == 2 * |pairs|
  {
    if pairs == [] then [] else [pairs[0].key, pairs[0].value] + Flatten(pairs[1..])
  }

  /** `pairs` takes attribute k from positions 2k and 2k+1 of `attrs`. */
  ghost predicate PairsOf(attrs: seq<string>, pairs: seq<EventAttribute>) {
    |attrs| == 2 * |pairs| &&
    forall k :: 0 <= k < |pairs| ==> pairs[k] == EventAttribute(attrs[2 * k], attrs[2 * k + 1])
  }

  /** Pairing drops and duplicates nothing and keeps the order: flattening
      the pairs gives back the input. */
  lemma {:induction false} FlattenPairsOf(attrs: seq<string>, pairs: seq<EventAttribute>)
    requires PairsOf(attrs, pairs)
    ensures Flatten(pairs) == attrs
  {
    if pairs != [] {
      assert PairsOf(attrs[2..], pairs[1..]) by {
        forall k | 0 <= k < |pairs[1..]|
          ensures pairs[1..][k] == EventAttribute(attrs[2..][2 * k], attrs[2..][2 * k + 1])
        {
          assert pairs[1..][k] == pairs[k + 1];
          assert 2 * (k + 1) == 2 * k + 2;
        }
      }
      FlattenPairsOf(attrs[2..], pairs[1..]);
      assert pairs[0] == EventAttribute(attrs[0], attrs[1]);
      assert attrs == [attrs[0], attrs[1]] + attrs[2..];
    }
  }

  /** Conversely, every list of attributes is the pairing of its flattening. */
  lemma {:induction false} PairsOfFlatten(pairs: seq<EventAttribute>)
    ensures PairsOf(Flatten(pairs), pairs)
  {
    if pairs != [] {
      PairsOfFlatten(pairs[1..]);
      var f := Flatten(pairs);
      assert f == [pairs[0].key, pairs[0].value] + Flatten(pairs[1..]);
      forall k | 0 <= k < |pairs|
        ensures pairs[k] == EventAttribute(f[2 * k], f[2 * k + 1])
      {
        if k > 0 {
          assert pairs[k] == pairs[1..][k - 1];
          assert f[2 * k] == Flatten(pairs[1..])[2 * (k - 1)];
          assert f[2 * k + 1] == Flatten(pairs[1..])[2 * (k - 1) + 1];
        }
      }
    }
  }

  /** attrKeysAndValues: an odd count is rejected; otherwise a buffer of
      half the length is filled, two input positions at a time. */
  method AttrKeysAndValues(attrs: seq<string>) returns (r: Result<seq<EventAttribute>, string>)
    ensures r.Failure? <==> |attrs| % 2 != 0
    ensures r.Failure? ==> r.error == ErrInvalidGnoEventAttrs
    ensures r.Success? ==> |r.value| == |attrs| / 2
    ensures r.Success? ==> forall k :: 0 <= k < |r.value| ==>
      r.value[k].key == attrs[2 * k] && r.value[k].value == attrs[2 * k + 1]
    ensures r.Success? ==> Flatten(r.value) == attrs
  {
    var attrLen := |attrs|;
    if attrLen % 2 != 0 {
      return Failure(ErrInvalidGnoEventAttrs);
    }
    var eventAttrs := new EventAttribute[attrLen / 2];
    var i := 0;
    while i < attrLen - 1
      invariant 0 <= i <= attrLen && i % 2 == 0
      invariant forall k :: 0 <= k < i / 2 ==> eventAttrs[k] == EventAttribute(attrs[2 * k], attrs[2 * k + 1])
    {
      eventAttrs[i / 2] := EventAttribute(attrs[i], attrs[i + 1]);
      i := i + 2;
    }
    assert PairsOf(attrs, eventAttrs[..]);
    FlattenPairsOf(attrs, eventAttrs[..]);
    return Success(eventAttrs[..]);
  }
}

// Types, constants and sequence helpers shared by the whole model.
module Types {

  // A C `char` of the platform the simulator runs on: one signed byte.
  type Byte = x: int | -128 <= x < 128
  type Bytes = seq<Byte>

  const PAYLOAD_MAX := 100
  const NAME_MAX := 100
  const TABLE_SIZE := 100

  // Node ids: they index the switches' 100-entry forwarding table.
  type Id = x: int | 0 <= x < TABLE_SIZE

  const PKT_PING_REQ: Byte := 0
  const PKT_PING_REPLY: Byte := 1
  const PKT_FILE_UPLOAD_START: Byte := 2
  const PKT_FILE_UPLOAD_END: Byte := 3
  const PKT_FILE_UPLOAD_IN: Byte := 4
  const PKT_FILE_DOWNLOAD_REQ: Byte := 5

  // The contents of a `struct packet`; the `length` field is |payload|.
  datatype Packet = Packet(src: Byte, dst: Byte, ptype: Byte, payload: Bytes)

  datatype Option<+T> = None | Some(value: T)

  predicate IsFilePacket(p: Packet) {
    p.ptype == PKT_FILE_UPLOAD_START || p.ptype == PKT_FILE_UPLOAD_IN || p.ptype == PKT_FILE_UPLOAD_END
  }

  function Min(a: int, b: int): int {
    if a < b then a else b
  }

  function Max(a: int, b: int): int {
    if a < b then b else a
  }

  function Take<T>(s: seq<T>, n: nat): seq<T> {
    if |s| <= n then s else s[..n]
  }

  predicate Distinct<T(==)>(s: seq<T>) {
    forall i, j :: 0 <= i < j < |s| ==> s[i] != s[j]
  }

  function Filter<T>(s: seq<T>, keep: T -> bool): seq<T> {
    if s == [] then [] else (if keep(s[0]) then [s[0]] else []) + Filter(s[1..], keep)
  }

  function Flatten<T>(ss: seq<seq<T>>): seq<T> {
    if ss == [] then [] else ss[0] + Flatten(ss[1..])
  }

  lemma {:induction false} FilterConcat<T>(a: seq<T>, b: seq<T>, keep: T -> bool)
    ensures Filter(a + b, keep) == Filter(a, keep) + Filter(b, keep)
  {
    if a == [] {
      assert a + b == b;
    } else {
      assert (a + b)[0] == a[0] && (a + b)[1..] == a[1..] + b;
      FilterConcat(a[1..], b, keep);
      var first := if keep(a[0]) then [a[0]] else [];
      assert first + (Filter(a[1..], keep) + Filter(b, keep)) == (first + Filter(a[1..], keep)) + Filter(b, keep);
    }
  }

  lemma {:induction false} FlattenConcat<T>(a: seq<seq<T>>, b: seq<seq<T>>)
    ensures Flatten(a + b) == Flatten(a) + Flatten(b)
  {
    if a == [] {
      assert a + b == b;
    } else {
      assert (a + b)[1..] == a[1..] + b;
      FlattenConcat(a[1..], b);
    }
  }

  lemma {:induction false} FilterMember<T>(s: seq<T>, keep: T -> bool, x: T)
    ensures x in Filter(s, keep) <==> x in s && keep(x)
  {
    if s != [] {
      assert s == [s[0]] + s[1..];
      FilterMember(s[1..], keep, x);
    }
  }

  lemma {:induction false} FilterAll<T>(s: seq<T>, keep: T -> bool)
    requires forall i :: 0 <= i < |s| ==> keep(s[i])
    ensures Filter(s, keep) == s
  {
    if s != [] {
      FilterAll(s[1..], keep);
    }
  }

  lemma {:induction false} FilterNone<T>(s: seq<T>, keep: T -> bool)
    requires forall i :: 0 <= i < |s| ==> !keep(s[i])
    ensures Filter(s, keep) == []
  {
    if s != [] {
      FilterNone(s[1..], keep);
    }
  }

  lemma FilterCons<T>(x: T, rest: seq<T>, keep: T -> bool)
    ensures Filter([x] + rest, keep) == if keep(x) then [x] + Filter(rest, keep) else Filter(rest, keep)
  {
    assert ([x] + rest)[1..] == rest && [] + Filter(rest, keep) == Filter(rest, keep);
  }

  lemma {:induction false} FiltersCommute<T>(s: seq<T>, a: T -> bool, b: T -> bool)
    ensures Filter(Filter(s, a), b) == Filter(Filter(s, b), a)
  {
    if s != [] {
      FiltersCommute(s[1..], a, b);
      assert s == [s[0]] + s[1..];
      FilterCons(s[0], s[1..], a);
      FilterCons(s[0], s[1..], b);
      FilterCons(s[0], Filter(s[1..], a), b);
      FilterCons(s[0], Filter(s[1..], b), a);
    }
  }

  lemma FilterPrefix<T>(a: seq<T>, b: seq<T>, keep: T -> bool)
    requires a <= b
    ensures Filter(a, keep) <= Filter(b, keep)
  {
    assert b == a + b[|a|..];
    FilterConcat(a, b[|a|..], keep);
  }

  // The packets travelling from `s` to `d`.
  function Between(s: Byte, d: Byte): Packet -> bool {
    (p: Packet) => p.src == s && p.dst == d
  }
}

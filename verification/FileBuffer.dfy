// The circular file buffer of host.c: 1001 slots, capacity 1000, silent truncation.
module FileBuffer {
  import opened Types

  const MAX_FILE_BUFFER := 1000
  const MAX_FILE_NAME := 100
  const SLOTS := MAX_FILE_BUFFER + 1

  // What a bounded queue of capacity 1000 holds after `s` was offered to it.
  function Offer(contents: Bytes, s: Bytes): Bytes {
    Take(contents + s, MAX_FILE_BUFFER)
  }

  // The queue after a whole sequence of offers.
  function OfferAll(contents: Bytes, pieces: seq<Bytes>): Bytes
    decreases |pieces|
  {
    if pieces == [] then contents else OfferAll(Offer(contents, pieces[0]), pieces[1..])
  }

  lemma OfferTwice(a: Bytes, b: Bytes)
    ensures Offer(Take(a, MAX_FILE_BUFFER), b) == Take(a + b, MAX_FILE_BUFFER)
  {
  }

  // However the bytes were cut into pieces, the buffer keeps the first 1000 of them.
  lemma {:induction false} OfferAllIsPrefix(before: Bytes, pieces: seq<Bytes>)
    ensures OfferAll(Take(before, MAX_FILE_BUFFER), pieces) == Take(before + Flatten(pieces), MAX_FILE_BUFFER)
    decreases |pieces|
  {
    if pieces == [] {
      assert before + [] == before;
    } else {
      OfferTwice(before, pieces[0]);
      OfferAllIsPrefix(before + pieces[0], pieces[1..]);
      assert before + pieces[0] + Flatten(pieces[1..]) == before + Flatten(pieces);
    }
  }

  // The slot reached after going `i` slots round the ring.
  function Slot(i: int): (r: int)
    requires 0 <= i < 2 * SLOTS
  {
    if i < SLOTS then i else i - SLOTS
  }

  lemma SlotIsMod(i: int)
    requires 0 <= i < 2 * SLOTS
    ensures Slot(i) == i % SLOTS
  {
  }

  // The `occ` bytes found from slot `head` on, wrapping at the end of the ring.
  function Window(ring: Bytes, head: int, occ: int): (s: Bytes)
    requires |ring| == SLOTS && 0 <= head < SLOTS && 0 <= occ <= MAX_FILE_BUFFER
    ensures |s| == occ
    ensures forall i :: 0 <= i < occ ==> s[i] == ring[Slot(head + i)]
  {
    seq(occ, i requires 0 <= i < occ => ring[Slot(head + i)])
  }

  lemma WindowPush(ring: Bytes, head: int, occ: int, b: Byte)
    requires |ring| == SLOTS && 0 <= head < SLOTS && 0 <= occ < MAX_FILE_BUFFER
    ensures Window(ring[Slot(head + occ) := b], head, occ + 1) == Window(ring, head, occ) + [b]
  {
    var longer := Window(ring[Slot(head + occ) := b], head, occ + 1);
    forall i | 0 <= i < occ + 1
      ensures longer[i] == (Window(ring, head, occ) + [b])[i]
    {
      assert i < occ ==> Slot(head + i) != Slot(head + occ);
    }
  }

  lemma WindowPop(ring: Bytes, head: int, occ: int)
    requires |ring| == SLOTS && 0 <= head < SLOTS && 0 < occ <= MAX_FILE_BUFFER
    ensures Window(ring, head, occ) == [ring[head]] + Window(ring, Slot(head + 1), occ - 1)
  {
    var rest := Window(ring, Slot(head + 1), occ - 1);
    forall i | 0 <= i < occ
      ensures Window(ring, head, occ)[i] == ([ring[head]] + rest)[i]
    {
      assert Slot(head + 0) == head;
      assert i > 0 ==> Slot(head + i) == Slot(Slot(head + 1) + (i - 1));
    }
  }

  lemma TakenOne(all: Bytes, i: nat, b: Byte, rest: Bytes)
    requires i <= |all| && all[i..] == [b] + rest
    ensures i < |all| && all[..i + 1] == all[..i] + [b] && rest == all[i + 1..]
  {
    assert all[i] == all[i..][0];
    assert all[i..][1..] == all[i + 1..];
  }

  lemma CutAndGlue(done: Bytes, rest: Bytes, n: nat)
    requires n <= |rest|
    ensures (done + rest[..n]) + rest[n..] == done + rest
  {
  }

  class FileBuf {
    const name: array<Byte>
    var nameLength: int
    const buffer: array<Byte>
    var head: int
    var tail: int
    var occ: int

    // The representation invariant: `tail` is always the slot of the newest byte.
    ghost predicate Valid()
      reads this
    {
      && name.Length == MAX_FILE_NAME
      && buffer.Length == SLOTS
      && name != buffer
      && 0 <= nameLength <= MAX_FILE_NAME
      && 0 <= head < SLOTS
      && 0 <= tail < SLOTS
      && 0 <= occ <= MAX_FILE_BUFFER
      && Slot(head + occ) == Slot(tail + 1)
    }

    // The queued bytes, oldest first.
    ghost function Contents(): (s: Bytes)
      requires Valid()
      reads this, buffer
      ensures |s| == occ
    {
      Window(buffer[..], head, occ)
    }

    ghost function Name(): (s: Bytes)
      requires Valid()
      reads this, name
    {
      name[..nameLength]
    }

    constructor ()
      ensures Valid() && Contents() == [] && Name() == []
      ensures fresh(name) && fresh(buffer)
    {
      name := new Byte[MAX_FILE_NAME];
      buffer := new Byte[SLOTS];
      head, tail, occ, nameLength := 0, MAX_FILE_BUFFER, 0, 0;
    }

    // file_buf_init: forgets the name and every queued byte.
    method Init()
      requires Valid()
      modifies this
      ensures Valid() && Contents() == [] && Name() == []
    {
      head := 0;
      tail := MAX_FILE_BUFFER;
      occ := 0;
      nameLength := 0;
    }

    // file_buf_put_name
    method PutName(s: Bytes)
      requires Valid() && |s| <= MAX_FILE_NAME
      modifies this`nameLength, name
      ensures Valid() && Name() == s && Contents() == old(Contents())
    {
      for i := 0 to |s|
        invariant name[..i] == s[..i]
        invariant unchanged(this) && unchanged(buffer)
      {
        name[i] := s[i];
      }
      nameLength := |s|;
    }

    // file_buf_get_name: copies the name into a buffer and terminates it with a zero byte.
    method GetName(target: array<Byte>)
      requires Valid() && target.Length > nameLength && target != name && target != buffer
      modifies target
      ensures target[..nameLength] == Name() && target[nameLength] == 0
      ensures target[nameLength + 1..] == old(target[nameLength + 1..])
    {
      for i := 0 to nameLength
        invariant target[..i] == name[..i]
        invariant target[nameLength + 1..] == old(target[nameLength + 1..])
      {
        target[i] := name[i];
      }
      target[nameLength] := 0;
    }

    // The body of the loop that adds.
    method AddByte(b: Byte)
      requires Valid() && occ < MAX_FILE_BUFFER
      modifies this`tail, this`occ, buffer
      ensures Valid() && occ == old(occ) + 1
      ensures Contents() == old(Contents()) + [b]
    {
      hide Window;
      WindowPush(buffer[..], head, occ, b);
      ghost var ring := buffer[..];
      SlotIsMod(tail + 1);
      tail := (tail + 1) % SLOTS;
      buffer[tail] := b;
      assert buffer[..] == ring[tail := b];
      occ := occ + 1;
    }

    // file_buf_add: queues the longest prefix of `s` that fits and returns its length.
    method Add(s: Bytes) returns (added: int)
      requires Valid()
      modifies this`tail, this`occ, buffer
      ensures Valid() && Name() == old(Name())
      ensures added == Min(|s|, MAX_FILE_BUFFER - old(occ))
      ensures Contents() == old(Contents()) + s[..added]
      ensures Contents() == Offer(old(Contents()), s)
    {
      hide Window;
      ghost var before := Contents();
      var i := 0;
      while i < |s| && occ < MAX_FILE_BUFFER
        invariant Valid() && 0 <= i <= |s|
        invariant head == old(head) && nameLength == old(nameLength) && unchanged(name)
        invariant occ == old(occ) + i
        invariant Contents() == before + s[..i]
      {
        AddByte(s[i]);
        assert s[..i + 1] == s[..i] + [s[i]];
        i := i + 1;
      }
      added := i;
      assert s[..|s|] == s;
    }

    // The body of the loop that removes.
    method RemoveByte() returns (b: Byte)
      requires Valid() && occ > 0
      modifies this`head, this`occ
      ensures Valid() && occ == old(occ) - 1
      ensures old(Contents()) == [b] + Contents()
    {
      hide Window;
      WindowPop(buffer[..], head, occ);
      b := buffer[head];
      SlotIsMod(head + 1);
      head := (head + 1) % SLOTS;
      occ := occ - 1;
    }

    // file_buf_remove: hands out the oldest bytes, at most `length` of them.
    method Remove(target: array<Byte>, length: nat) returns (removed: int)
      requires Valid() && target.Length >= length && target != name && target != buffer
      modifies this`head, this`occ, target
      ensures Valid() && Name() == old(Name())
      ensures removed == Min(length, old(occ))
      ensures target[..removed] == old(Contents())[..removed]
      ensures target[removed..] == old(target[removed..])
      ensures Contents() == old(Contents())[removed..]
    {
      hide Window;
      ghost var all := Contents();
      var i := 0;
      while i < length && occ > 0
        invariant Valid() && 0 <= i <= length
        invariant unchanged(name) && unchanged(buffer)
        invariant nameLength == old(nameLength)
        invariant occ == old(occ) - i
        invariant target[..i] == all[..i]
        invariant target[i..] == old(target[i..])
        invariant Contents() == all[i..]
      {
        target[i] := RemoveByte();
        TakenOne(all, i, target[i], Contents());
        i := i + 1;
      }
      removed := i;
    }

    // The write loop executed for an END packet: empties the buffer in blocks of 100 bytes and
    // emits every byte once, in order.
    method Drain() returns (file: Bytes)
      requires Valid()
      modifies this`head, this`occ
      ensures Valid() && Name() == old(Name())
      ensures file == old(Contents())
      ensures Contents() == []
    {
      file := [];
      var block := new Byte[PAYLOAD_MAX + 1];
      while occ > 0
        invariant Valid() && unchanged(name) && unchanged(buffer)
        invariant nameLength == old(nameLength)
        invariant fresh(block) && block.Length == PAYLOAD_MAX + 1
        invariant file + Contents() == old(Contents())
        decreases occ
      {
        ghost var before := Contents();
        var n := Remove(block, PAYLOAD_MAX);
        block[n] := 0;
        CutAndGlue(file, before, n);
        file := file + block[..n];
      }
      assert Contents() == [];
    }
  }
}

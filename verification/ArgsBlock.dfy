/** The boot argument block: the loader's writer (loader/src/args.rs) and the kernel's reader
    (kernel/src/args.rs).

    A word is a `u32`. The CRC-16 of a tag's data is any function into 16 bits: the reader does not
    check it.
  */
module ArgsBlock {
  import opened Basics

  const WORD_LIMIT: nat := 0x1_0000_0000
  const HALF: nat := 0x1_0000

  type Word = w: nat | w < WORD_LIMIT

  datatype Tag = Tag(name: Word, data: seq<Word>)

  type Crc = seq<Word> -> nat

  /** The second word of a tag: the CRC in its low half, the data's length in words in its high
      half, whatever of the length does not fit shifted out.
    */
  function Header(crc: Crc, data: seq<Word>): Word {
    crc(data) % HALF + |data| % HALF * HALF
  }

  function EncodeTag(crc: Crc, t: Tag): seq<Word> {
    [t.name, Header(crc, t.data)] + t.data
  }

  function Encode(crc: Crc, tags: seq<Tag>): seq<Word> {
    if tags == [] then [] else EncodeTag(crc, tags[0]) + Encode(crc, tags[1..])
  }

  lemma {:induction false} EncodeAppend(crc: Crc, tags: seq<Tag>, t: Tag)
    ensures Encode(crc, tags + [t]) == Encode(crc, tags) + EncodeTag(crc, t)
  {
    if tags == [] {
      assert tags + [t] == [t];
    } else {
      assert (tags + [t])[1..] == tags[1..] + [t];
      EncodeAppend(crc, tags[1..], t);
    }
  }

  // --- 64-bit values --------------------------------------------------------------------------------

  const WIDE_LIMIT: nat := 0x1_0000_0000_0000_0000

  /** `word64`: the low word first. */
  function Word64(value: nat): seq<Word>
    requires value < WIDE_LIMIT
  {
    [value % WORD_LIMIT, value / WORD_LIMIT]
  }

  /** `wide`: the value in two words, narrowed to a `usize` whose values lie below `limit`; none
      stops the boot, as does a table too short.
    */
  function Wide(words: seq<Word>, index: nat, limit: nat): Option<nat> {
    if index + 1 >= |words| then None
    else
      var value := words[index] + words[index + 1] * WORD_LIMIT;
      if value < limit then Some(value) else None
  }

  /** `wide` inverts `word64` exactly for the values that fit. */
  lemma {:induction false} WideInverts(before: seq<Word>, value: nat, after: seq<Word>, limit: nat)
    requires value < WIDE_LIMIT
    ensures Wide(before + Word64(value) + after, |before|, limit)
         == if value < limit then Some(value) else None
  {
    var words := before + Word64(value) + after;
    assert words[|before|] == value % WORD_LIMIT && words[|before| + 1] == value / WORD_LIMIT;
  }

  // --- The reader -----------------------------------------------------------------------------------

  datatype Next = End | Overrun | Item(tag: Tag, offset: nat)

  /** The tag at word `at` of a block of `|block|` words: its name, then as many words of data as the
      upper half of the second word says. A header that does not fit ends the block; data that does
      not fit stops the boot.
    */
  function NextTag(block: seq<Word>, at: nat): Next {
    if at + 2 > |block| then End
    else
      var size := block[at + 1] / HALF;
      if size > |block| - at - 2 then Overrun
      else Item(Tag(block[at], block[at + 2..at + 2 + size]), at + 2 + size)
  }

  /** Every tag from word `at` on; none if the boot stops. */
  function Tags(block: seq<Word>, at: nat): Option<seq<Tag>>
    decreases |block| - at
  {
    match NextTag(block, at)
    case End => Some([])
    case Overrun => None
    case Item(tag, next) =>
      match Tags(block, next)
      case None => None
      case Some(rest) => Some([tag] + rest)
  }

  /** Reading on from a boundary is reading the rest alone. */
  lemma {:induction false} TagsShift(before: seq<Word>, block: seq<Word>, at: nat)
    ensures Tags(before + block, |before| + at) == Tags(block, at)
    decreases |block| - at
  {
    var whole := before + block;
    if at + 2 <= |block| {
      assert whole[|before| + at] == block[at] && whole[|before| + at + 1] == block[at + 1];
      var size := block[at + 1] / HALF;
      if size <= |block| - at - 2 {
        assert whole[|before| + at + 2..|before| + at + 2 + size] == block[at + 2..at + 2 + size];
        TagsShift(before, block, at + 2 + size);
      }
    }
  }

  /** Every tag's length fits the header's half word. */
  predicate Fit(tags: seq<Tag>) {
    forall i :: 0 <= i < |tags| ==> |tags[i].data| < HALF
  }

  /** The reader gives back exactly the tags written if, and only if, each is shorter than 65536
      words.
    */
  lemma {:induction false} ReadsBack(crc: Crc, tags: seq<Tag>)
    ensures Tags(Encode(crc, tags), 0) == Some(tags) <==> Fit(tags)
  {
    if tags == [] {
    } else {
      var first, rest := EncodeTag(crc, tags[0]), Encode(crc, tags[1..]);
      var block := first + rest;
      assert Encode(crc, tags) == block;
      HeaderSize(crc, tags[0].data);
      assert block[1] / HALF == |tags[0].data| % HALF;
      var size := |tags[0].data| % HALF;
      assert block[2..2 + size] == tags[0].data[..size];
      if |tags[0].data| < HALF {
        assert tags[0].data[..size] == tags[0].data;
        assert NextTag(block, 0) == Item(tags[0], |first|);
        TagsShift(first, rest, 0);
        ReadsBack(crc, tags[1..]);
        ConsInverts(tags[0], Tags(rest, 0), tags);
        assert Fit(tags) <==> Fit(tags[1..]);
      } else {
        assert |NextTag(block, 0).tag.data| != |tags[0].data|;
      }
    }
  }

  lemma {:induction false} ConsInverts(first: Tag, rest: Option<seq<Tag>>, tags: seq<Tag>)
    requires tags != [] && tags[0] == first
    ensures rest.Some? ==> (Some([first] + rest.value) == Some(tags) <==> rest == Some(tags[1..]))
  {
    assert tags == [first] + tags[1..];
    if rest.Some? && [first] + rest.value == tags { assert ([first] + rest.value)[1..] == rest.value; }
  }

  lemma {:induction false} HeaderSize(crc: Crc, data: seq<Word>)
    ensures Header(crc, data) / HALF == |data| % HALF
  {
  }

  /** In a block of at most 65537 words, such as the loader's four pages, every tag is that short. */
  lemma {:induction false} ShortBlockFits(crc: Crc, tags: seq<Tag>)
    requires |Encode(crc, tags)| <= HALF + 1
    ensures Fit(tags)
  {
    if tags != [] {
      ShortBlockFits(crc, tags[1..]);
      assert |EncodeTag(crc, tags[0])| == |tags[0].data| + 2;
      forall i | 0 <= i < |tags| ensures |tags[i].data| < HALF {
        if i > 0 { assert tags[i] == tags[1..][i - 1]; }
      }
    }
  }

  /** `KernelArguments` and its iterator: the block in memory, and where the next tag starts. */
  class ArgumentIterator {
    const base: array<Word>
    const size: nat // in bytes
    var offset: nat

    /** `KernelArguments::iter`: the size is word 2, in words. */
    constructor (base: array<Word>)
      requires base.Length > 2
      ensures this.base == base && size == base[2] as nat * 4 && offset == 0
    {
      this.base, size, offset := base, base[2] as nat * 4, 0;
    }

    /** The words the block states as its own. */
    ghost function Block(): seq<Word>
      reads base
      requires size / 4 <= base.Length
    {
      base[..size / 4]
    }

    /** The next tag, read from the stated block alone. */
    method Next() returns (next: Next)
      requires size / 4 <= base.Length && offset % 4 == 0 && size % 4 == 0
      modifies this
      ensures next == NextTag(Block(), old(offset) / 4)
      ensures offset == (if next.Item? then next.offset * 4 else old(offset))
    {
      if offset + 8 > size {
        return End;
      }
      var wordsLeft := (size - offset - 8) / 4;
      var name := base[offset / 4];
      var words := base[offset / 4 + 1] / HALF;
      if words > wordsLeft {
        return Overrun;
      }
      var data := base[offset / 4 + 2..offset / 4 + 2 + words];
      offset := offset + words * 4 + 8;
      return Item(Tag(name, data), offset / 4);
    }
  }

  ghost function After(read: seq<Tag>, rest: Option<seq<Tag>>): Option<seq<Tag>> {
    match rest
    case None => None
    case Some(tags) => Some(read + tags)
  }

  /** Read every tag of a block, as the boot's `for tag in args.iter()`. */
  method ReadAll(base: array<Word>) returns (tags: Option<seq<Tag>>)
    requires base.Length > 2 && base[2] as nat <= base.Length
    ensures tags == Tags(base[..base[2]], 0)
  {
    var iter := new ArgumentIterator(base);
    var read: seq<Tag> := [];
    ghost var block := base[..base[2]];
    assert forall rest: seq<Tag> :: [] + rest == rest;
    while true
      invariant iter.base == base && iter.size == |block| * 4 && iter.offset % 4 == 0 && base[..base[2]] == block
      invariant iter.offset / 4 <= |block| || NextTag(block, iter.offset / 4).End?
      invariant Tags(block, 0) == After(read, Tags(block, iter.offset / 4))
      decreases |block| - iter.offset / 4
    {
      var next := iter.Next();
      match next {
        case End =>
          assert read + [] == read;
          return Some(read);
        case Overrun => return None;
        case Item(tag, _) =>
          assert forall rest: seq<Tag> :: read + ([tag] + rest) == read + [tag] + rest;
          read := read + [tag];
      }
    }
  }

  // --- The writer -----------------------------------------------------------------------------------

  const XARG: Word := 0x6772_4158 // "XArg", least significant byte first
  const XARG_WORDS: nat := 7

  /** What `finish` puts in the first tag. */
  function XArg(total: nat, ramStart: nat, ramSize: nat, ramName: Word): Tag
    requires ramStart < WIDE_LIMIT && ramSize < WIDE_LIMIT
  {
    Tag(XARG, [total % WORD_LIMIT, 2] + Word64(ramStart) + Word64(ramSize) + [ramName])
  }

  /** `ArgsBuilder`: a buffer filled from the start, `len` words so far, the last tag begun at
      `tagStart`. A write past the buffer's end stops the boot: `ok` is then false.
    */
  class ArgsBuilder {
    const crc: Crc
    const buf: array<Word>
    var len: nat
    var tagStart: nat

    ghost predicate Valid()
      reads this
    {
      len <= buf.Length
    }

    /** An empty block; `Build` goes on as `new` does, with room for the first tag. */
    constructor (crc: Crc, buf: array<Word>)
      ensures this.crc == crc && this.buf == buf && Valid() && len == 0 && tagStart == 0
    {
      this.crc, this.buf, len, tagStart := crc, buf, 0, 0;
    }

    method Word(value: Word) returns (ok: bool)
      requires Valid()
      modifies this`len, buf
      ensures Valid() && ok == (old(len) < buf.Length) && len == old(len) + if ok then 1 else 0
      ensures ok ==> buf[..] == old(buf[..])[old(len) := value]
      ensures !ok ==> buf[..] == old(buf[..])
    {
      ok := len < buf.Length;
      if ok {
        buf[len] := value;
        len := len + 1;
      }
    }

    /** Write `words` in turn; `ok` if they all fit. */
    method Put(words: seq<Word>) returns (ok: bool)
      requires Valid()
      modifies this`len, buf
      ensures Valid() && ok == (old(len) + |words| <= buf.Length)
      ensures ok ==> len == old(len) + |words| && buf[..] == Overwrite(old(buf[..]), old(len), words)
    {
      ok := true;
      for i := 0 to |words|
        invariant Valid() && ok && len == old(len) + i
        invariant buf[..] == Overwrite(old(buf[..]), old(len), words[..i])
      {
        ok := Word(words[i]);
        if !ok {
          return;
        }
        assert words[..i + 1] == words[..i] + [words[i]];
      }
      assert words[..|words|] == words;
    }

    method Begin(name: Word) returns (ok: bool)
      requires Valid()
      modifies this, buf
      ensures Valid() && ok == (old(len) + 2 <= buf.Length) && tagStart == old(len)
      ensures ok ==> len == old(len) + 2 && buf[..] == Overwrite(old(buf[..]), old(len), [name, 0])
    {
      tagStart := len;
      ok := Put([name, 0]);
    }

    /** Patch the tag's header, its data now known. */
    method End()
      requires Valid() && tagStart + 2 <= len
      modifies buf
      ensures buf[..] == old(buf[..])[tagStart + 1 := Header(crc, old(buf[tagStart + 2..len]))]
    {
      var data := buf[tagStart + 2..len];
      buf[tagStart + 1] := Header(crc, data);
    }

    /** A whole tag: `begin`, its words, `end`. */
    method Add(t: Tag) returns (ok: bool)
      requires Valid()
      modifies this, buf
      ensures Valid() && ok == (old(len) + |EncodeTag(crc, t)| <= buf.Length)
      ensures ok ==> len == old(len) + |EncodeTag(crc, t)|
      ensures ok ==> buf[..] == Overwrite(old(buf[..]), old(len), EncodeTag(crc, t))
    {
      ok := Begin(t.name);
      if !ok { return; }
      ghost var begun := buf[..];
      ok := Put(t.data);
      if !ok { return; }
      assert buf[tagStart + 2..len] == t.data;
      End();
      TagOverwrite(old(buf[..]), old(len), crc, t);
    }

    /** `tags` in order. */
    method AddAll(tags: seq<Tag>) returns (ok: bool)
      requires Valid()
      modifies this, buf
      ensures Valid() && ok == (old(len) + |Encode(crc, tags)| <= buf.Length)
      ensures ok ==> len == old(len) + |Encode(crc, tags)|
      ensures ok ==> buf[..] == Overwrite(old(buf[..]), old(len), Encode(crc, tags))
    {
      ok := true;
      for i := 0 to |tags|
        invariant Valid() && ok && len == old(len) + |Encode(crc, tags[..i])|
        invariant buf[..] == Overwrite(old(buf[..]), old(len), Encode(crc, tags[..i]))
      {
        assert tags[..i + 1] == tags[..i] + [tags[i]];
        EncodeAppend(crc, tags[..i], tags[i]);
        EncodePrefix(crc, tags, i + 1);
        ok := Add(tags[i]);
        if !ok { return; }
        OverwriteNext(old(buf[..]), old(len), Encode(crc, tags[..i]), EncodeTag(crc, tags[i]));
      }
      assert tags[..|tags|] == tags;
    }

    /** `finish`: the first tag again, now that the whole size is known. */
    method Finish(ramStart: nat, ramSize: nat, ramName: Word) returns (ok: bool)
      requires Valid() && ramStart < WIDE_LIMIT && ramSize < WIDE_LIMIT
      modifies this, buf
      ensures ok == (XARG_WORDS + 2 <= buf.Length)
      ensures ok ==> buf[..] == Overwrite(old(buf[..]), 0, EncodeTag(crc, XArg(old(len), ramStart, ramSize, ramName)))
    {
      var total := len % WORD_LIMIT;
      len := 0;
      ok := Add(Tag(XARG, [total, 2] + Word64(ramStart) + Word64(ramSize) + [ramName]));
    }
  }

  /** `buf` with `words` written over it from `at`. */
  ghost function Overwrite(buf: seq<Word>, at: nat, words: seq<Word>): seq<Word>
    requires at + |words| <= |buf|
  {
    buf[..at] + words + buf[at + |words|..]
  }

  lemma {:induction false} OverwriteNext(buf: seq<Word>, at: nat, first: seq<Word>, next: seq<Word>)
    requires at + |first| + |next| <= |buf|
    ensures Overwrite(Overwrite(buf, at, first), at + |first|, next) == Overwrite(buf, at, first + next)
  {
  }

  lemma {:induction false} TagOverwrite(buf: seq<Word>, at: nat, crc: Crc, t: Tag)
    requires at + |EncodeTag(crc, t)| <= |buf|
    ensures Overwrite(Overwrite(buf, at, [t.name, 0]), at + 2, t.data)[at + 1 := Header(crc, t.data)]
         == Overwrite(buf, at, EncodeTag(crc, t))
  {
  }

  /** The loader's block: the first tag, then `tags` in order, then the first tag filled in. It is
      written exactly when the whole fits, and the kernel's iterator then reads those tags back.
    */
  method Build(crc: Crc, buf: array<Word>, tags: seq<Tag>, ramStart: nat, ramSize: nat, ramName: Word)
    returns (ok: bool)
    requires ramStart < WIDE_LIMIT && ramSize < WIDE_LIMIT
    modifies buf
    ensures var block := [XArg(0, ramStart, ramSize, ramName)] + tags;
            ok <==> |Encode(crc, block)| <= buf.Length
    ensures ok ==> var n := |Encode(crc, [XArg(0, ramStart, ramSize, ramName)] + tags)|;
                   buf[..n] == Encode(crc, [XArg(n, ramStart, ramSize, ramName)] + tags)
  {
    hide Encode, EncodeTag;
    var builder := new ArgsBuilder(crc, buf);
    var blank := Tag(XARG, seq(XARG_WORDS, _ => 0));
    ok := builder.Add(blank);
    FirstTag(crc, blank, tags);
    FirstTag(crc, XArg(0, ramStart, ramSize, ramName), tags);
    if !ok { return; }
    ok := builder.AddAll(tags);
    if !ok { return; }
    ghost var n := builder.len;
    assert buf[XARG_WORDS + 2..n] == Encode(crc, tags);
    ok := builder.Finish(ramStart, ramSize, ramName);
    FirstTag(crc, XArg(n, ramStart, ramSize, ramName), tags);
    assert buf[..n] == EncodeTag(crc, XArg(n, ramStart, ramSize, ramName)) + Encode(crc, tags);
  }

  lemma {:induction false} FirstTag(crc: Crc, first: Tag, tags: seq<Tag>)
    requires |first.data| == XARG_WORDS
    ensures Encode(crc, [first] + tags) == EncodeTag(crc, first) + Encode(crc, tags)
    ensures |EncodeTag(crc, first)| == XARG_WORDS + 2
  {
    assert ([first] + tags)[1..] == tags;
  }

  lemma {:induction false} EncodePrefix(crc: Crc, tags: seq<Tag>, i: nat)
    requires i <= |tags|
    ensures |Encode(crc, tags[..i])| <= |Encode(crc, tags)|
    decreases |tags| - i
  {
    if i < |tags| {
      assert tags[..i + 1] == tags[..i] + [tags[i]];
      EncodeAppend(crc, tags[..i], tags[i]);
      EncodePrefix(crc, tags, i + 1);
    } else {
      assert tags[..i] == tags;
    }
  }

  datatype Ram = Ram(start: nat, size: nat, name: Word)

  /** What the kernel takes from the first tag: the RAM's base and size, which must fit its addresses, and its name. */
  function RamOf(first: Tag, limit: nat): Option<Ram> {
    if first.name != XARG || |first.data| < XARG_WORDS || first.data[1] != 2 then None
    else
      match (Wide(first.data, 2, limit), Wide(first.data, 4, limit))
      case (Some(start), Some(size)) => Some(Ram(start, size, first.data[6]))
      case _ => None
  }

  /** It takes exactly what the loader was given, or stops if that does not fit. */
  lemma {:induction false} RamReadsBack(total: nat, ram: Ram, limit: nat)
    requires ram.start < WIDE_LIMIT && ram.size < WIDE_LIMIT
    ensures RamOf(XArg(total, ram.start, ram.size, ram.name), limit)
         == if ram.start < limit && ram.size < limit then Some(ram) else None
  {
    var first := [total % WORD_LIMIT, 2];
    var data := XArg(total, ram.start, ram.size, ram.name).data;
    WideInverts(first, ram.start, Word64(ram.size) + [ram.name], limit);
    assert data == first + Word64(ram.start) + (Word64(ram.size) + [ram.name]);
    WideInverts(first + Word64(ram.start), ram.size, [ram.name], limit);
  }

  /** Writer and reader end to end: every list of tags that fits the buffer, each shorter than
      65536 words, comes back after the first tag, which names the RAM given.
    */
  method WriteThenRead(crc: Crc, buf: array<Word>, tags: seq<Tag>, ramStart: nat, ramSize: nat, ramName: Word)
    returns (read: Option<seq<Tag>>)
    requires ramStart < WIDE_LIMIT && ramSize < WIDE_LIMIT
    requires |Encode(crc, [XArg(0, ramStart, ramSize, ramName)] + tags)| <= buf.Length < WORD_LIMIT
    modifies buf
    ensures var n := |Encode(crc, [XArg(0, ramStart, ramSize, ramName)] + tags)|;
            read == Some([XArg(n, ramStart, ramSize, ramName)] + tags) <==> Fit(tags)
    ensures Fit(tags) ==>
              && read.Some? && |read.value| == |tags| + 1 && read.value[1..] == tags
              && forall limit: nat :: RamOf(read.value[0], limit)
                   == if ramStart < limit && ramSize < limit then Some(Ram(ramStart, ramSize, ramName)) else None
  {
    ghost var n := |Encode(crc, [XArg(0, ramStart, ramSize, ramName)] + tags)|;
    var ok := Build(crc, buf, tags, ramStart, ramSize, ramName);
    ghost var whole := [XArg(n, ramStart, ramSize, ramName)] + tags;
    FirstWords(crc, whole, n);
    assert buf[2] == buf[..n][2] == n;
    read := ReadAll(buf);
    ReadsBack(crc, whole);
    assert Fit(whole) <==> Fit(tags) by {
      assert forall i :: 0 <= i < |tags| ==> whole[i + 1] == tags[i];
    }
    forall limit: nat
      ensures RamOf(whole[0], limit)
           == if ramStart < limit && ramSize < limit then Some(Ram(ramStart, ramSize, ramName)) else None
    {
      RamReadsBack(n, Ram(ramStart, ramSize, ramName), limit);
    }
  }

  lemma {:induction false} FirstWords(crc: Crc, tags: seq<Tag>, total: nat)
    requires tags != [] && |tags[0].data| > 0 && tags[0].data[0] == total
    ensures |Encode(crc, tags)| > 2 && Encode(crc, tags)[2] == total
  {
  }
}

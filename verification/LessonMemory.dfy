/** The rotating lesson file. Texts are ASCII, so that a character is a byte. */
module LessonMemory {

  const MAX_BYTES: nat := 40000

  /** The largest block that never overfills the file: 40000 + 17142 rotates down to 40000. */
  const SAFE_BLOCK: nat := 17142

  /** The live file, and the chunks moved to the archive, oldest first. */
  datatype Memory = Memory(live: string, chunks: seq<string>)

  /** 0.3 of the length, rounded down. */
  function Cutoff(n: nat): (c: nat)
    ensures c <= n
  {
    3 * n / 10
  }

  function Appended(m: Memory, block: string): Memory {
    var current := m.live + block;
    if |current| > MAX_BYTES then Memory(current[Cutoff(|current|)..], m.chunks + [current[..Cutoff(|current|)]])
    else m.(live := current)
  }

  class LessonFile {
    var live: string
    var chunks: seq<string>
    /** The text of the archive file. */
    var archive: string

    constructor ()
      ensures live == "" && chunks == [] && archive == "" && archive == ArchiveText(chunks)
    {
      live, chunks, archive := "", [], "";
    }

    method AppendLesson(block: string)
      requires archive == ArchiveText(chunks)
      modifies this
      ensures Memory(live, chunks) == Appended(Memory(old(live), old(chunks)), block)
      ensures archive == ArchiveText(chunks)
    {
      var current := live + block;
      if |current| > MAX_BYTES {
        var cutoff := Cutoff(|current|);
        var oldest, remaining := current[..cutoff], current[cutoff..];
        archive := archive + ("\n---\n" + oldest);
        chunks := chunks + [oldest];
        assert chunks[..|chunks| - 1] == old(chunks);
        current := remaining;
      }
      live := current;
    }
  }

  function ArchiveText(chunks: seq<string>): string {
    if chunks == [] then "" else ArchiveText(chunks[..|chunks| - 1]) + ("\n---\n" + chunks[|chunks| - 1])
  }

  /** The archive file has the chunks in order, the oldest first, each behind a rule. */
  lemma {:induction false} ArchiveFromFront(chunk: string, chunks: seq<string>)
    ensures ArchiveText([]) == "" && ArchiveText([chunk] + chunks) == "\n---\n" + chunk + ArchiveText(chunks)
  {
    var all := [chunk] + chunks;
    if |chunks| == 0 {
      assert all == [chunk] && [chunk][..0] == [];
    } else {
      assert all[..|all| - 1] == [chunk] + chunks[..|chunks| - 1];
      ArchiveFromFront(chunk, chunks[..|chunks| - 1]);
    }
  }

  // ---- Histories ----------------------------------------------------------------------------

  function Kept(m: Memory, blocks: seq<string>): Memory {
    if blocks == [] then m else Appended(Kept(m, blocks[..|blocks| - 1]), blocks[|blocks| - 1])
  }

  function Concat(parts: seq<string>): string {
    if parts == [] then "" else Concat(parts[..|parts| - 1]) + parts[|parts| - 1]
  }

  function Everything(m: Memory): string {
    Concat(m.chunks) + m.live
  }

  lemma AppendKeeps(m: Memory, block: string)
    ensures Everything(Appended(m, block)) == Everything(m) + block
  {
    var current := m.live + block;
    if |current| > MAX_BYTES {
      var oldest, remaining := current[..Cutoff(|current|)], current[Cutoff(|current|)..];
      var chunks := m.chunks + [oldest];
      assert chunks[..|chunks| - 1] == m.chunks;
      assert oldest + remaining == current;
      Reassociate(Concat(m.chunks), oldest, remaining, m.live, block);
    } else {
      Reassociate(Concat(m.chunks), "", current, m.live, block);
      assert Concat(m.chunks) + "" == Concat(m.chunks);
    }
  }

  lemma Reassociate(a: string, x: string, y: string, live: string, block: string)
    requires x + y == live + block
    ensures (a + x) + y == (a + live) + block
  {
    assert (a + x) + y == a + (x + y);
  }

  /** Nothing is lost or reordered: the archived chunks followed by the live file are everything written. */
  lemma {:induction false} NothingLost(m: Memory, blocks: seq<string>)
    ensures Everything(Kept(m, blocks)) == Everything(m) + Concat(blocks)
  {
    hide Appended, Everything;
    if blocks == [] {
      assert Everything(m) + "" == Everything(m);
    } else {
      var init, block := blocks[..|blocks| - 1], blocks[|blocks| - 1];
      NothingLost(m, init);
      AppendKeeps(Kept(m, init), block);
      assert (Everything(m) + Concat(init)) + block == Everything(m) + (Concat(init) + block);
    }
  }

  predicate AllWithin(blocks: seq<string>, size: nat) {
    forall b :: b in blocks ==> |b| <= size
  }

  lemma {:induction false} StaysWithin(blocks: seq<string>, size: nat)
    requires AllWithin(blocks, size) && size <= SAFE_BLOCK
    ensures |Kept(Memory("", []), blocks).live| <= MAX_BYTES
  {
    if blocks != [] {
      StaysWithin(blocks[..|blocks| - 1], size);
      assert blocks[|blocks| - 1] in blocks;
    }
  }

  function Filler(n: nat): (s: string)
    ensures |s| == n
  {
    seq(n, _ => 'x')
  }

  /** Four blocks of no more than 17143 bytes leave 40001 in the live file. */
  lemma Overfills()
    ensures |Kept(Memory("", []), [Filler(17143), Filler(17143), Filler(5714), Filler(17143)]).live| == 40001
  {
    var m := Memory("", []);
    var a, b, c, d := Filler(17143), Filler(17143), Filler(5714), Filler(17143);
    assert [a, b, c, d][..3] == [a, b, c] && [a, b, c][..2] == [a, b] && [a, b][..1] == [a] && [a][..0] == [];
    var m3 := Kept(m, [a, b, c]);
    assert Kept(m, [a]).live == a;
    assert Kept(m, [a, b]).live == a + b;
    assert |m3.live| == 40000;
    assert Kept(m, [a, b, c, d]) == Appended(m3, d);
  }

  /**
   * Main result: blocks of up to `size` bytes keep the live file within its 40000 bytes, over every history,
   * exactly when `size` is at most 17142.
   */
  lemma LiveBoundIff(size: nat)
    ensures (forall blocks: seq<string> :: AllWithin(blocks, size) ==> |Kept(Memory("", []), blocks).live| <= MAX_BYTES)
            <==> size <= SAFE_BLOCK
  {
    if size <= SAFE_BLOCK {
      forall blocks: seq<string> | AllWithin(blocks, size) ensures |Kept(Memory("", []), blocks).live| <= MAX_BYTES {
        StaysWithin(blocks, size);
      }
    } else {
      Overfills();
      assert AllWithin([Filler(17143), Filler(17143), Filler(5714), Filler(17143)], size);
    }
  }
}

/** The workspace page's block-list handlers: append a block, remove every
    block with an id, and set the value of every block with an id. Ids come
    from the clock and are not assumed unique. */
module BlockList {
  import opened Wrappers
  import Seqs
  import opened Blocks

  /** `handleAddBlock`: `[...prev, block]`. */
  function Appended(blocks: seq<CodeBlock>, b: CodeBlock): (r: seq<CodeBlock>)
    ensures |r| == |blocks| + 1 && r[..|blocks|] == blocks && r[|blocks|] == b
  {
    blocks + [b]
  }

  /** The test `block.id !== id`. */
  function KeepsId(id: string): CodeBlock -> bool {
    (b: CodeBlock) => b.id != id
  }

  /** `handleRemoveBlock`: `prev.filter((block) => block.id !== id)`. */
  function Removed(blocks: seq<CodeBlock>, id: string): (r: seq<CodeBlock>)
    ensures forall i :: 0 <= i < |r| ==> r[i].id != id && r[i] in blocks
    ensures forall i :: 0 <= i < |blocks| && blocks[i].id != id ==> blocks[i] in r
  {
    Seqs.Filter(blocks, KeepsId(id))
  }

  /** `handleUpdateBlock`: every block with the id gets the new value. */
  function Updated(blocks: seq<CodeBlock>, id: string, v: real): (r: seq<CodeBlock>)
    ensures |r| == |blocks|
    ensures forall i :: 0 <= i < |r| ==>
      r[i].(value := blocks[i].value) == blocks[i] &&
      r[i].value == if blocks[i].id == id then Some(v) else blocks[i].value
  {
    seq(|blocks|, i requires 0 <= i < |blocks| =>
      if blocks[i].id == id then blocks[i].(value := Some(v)) else blocks[i])
  }

  /** Removal drops every copy of a block with the id and keeps every other
      block exactly as often as it occurred. */
  lemma RemovedCounts(blocks: seq<CodeBlock>, id: string, b: CodeBlock)
    ensures multiset(Removed(blocks, id))[b] == if b.id == id then 0 else multiset(blocks)[b]
  {
    Seqs.FilterCount(blocks, KeepsId(id), b);
  }

  /** Removal keeps the order of what remains: removing from a list split in
      two is removing from each part. */
  lemma RemovedOrder(front: seq<CodeBlock>, back: seq<CodeBlock>, id: string)
    ensures Removed(front + back, id) == Removed(front, id) + Removed(back, id)
  {
    Seqs.FilterAppend(front, back, KeepsId(id));
  }

  /** Removing an id no block carries changes nothing. */
  lemma RemoveAbsent(blocks: seq<CodeBlock>, id: string)
    requires forall i :: 0 <= i < |blocks| ==> blocks[i].id != id
    ensures Removed(blocks, id) == blocks
  {
    Seqs.FilterKeepsAll(blocks, KeepsId(id));
  }

  /** Adding a block and then removing its id leaves the list the removal
      alone would leave: the new block is gone, and so is every earlier block
      that happened to share its id. */
  lemma RemoveAfterAdd(blocks: seq<CodeBlock>, b: CodeBlock)
    ensures Removed(Appended(blocks, b), b.id) == Removed(blocks, b.id)
  {
    Seqs.FilterAppend(blocks, [b], KeepsId(b.id));
    Seqs.FilterSingleton(b, KeepsId(b.id));
  }

  /** Removing an id undoes any update of it. */
  lemma {:induction false} RemoveAfterUpdate(blocks: seq<CodeBlock>, id: string, v: real)
    ensures Removed(Updated(blocks, id, v), id) == Removed(blocks, id)
  {
    if blocks != [] {
      var u := Updated(blocks, id, v);
      assert u == [u[0]] + u[1..];
      assert blocks == [blocks[0]] + blocks[1..];
      assert u[1..] == Updated(blocks[1..], id, v);
      RemoveAfterUpdate(blocks[1..], id, v);
      RemovedOrder([u[0]], u[1..], id);
      RemovedOrder([blocks[0]], blocks[1..], id);
      Seqs.FilterSingleton(u[0], KeepsId(id));
      Seqs.FilterSingleton(blocks[0], KeepsId(id));
    }
  }

  /** Updating an id no block carries changes nothing; updating twice with
      the same value is updating once. */
  lemma UpdateAbsentOrRepeated(blocks: seq<CodeBlock>, id: string, v: real)
    ensures (forall i :: 0 <= i < |blocks| ==> blocks[i].id != id) ==> Updated(blocks, id, v) == blocks
    ensures Updated(Updated(blocks, id, v), id, v) == Updated(blocks, id, v)
  {
  }

  /** An edited block keeps its number field, since it now has a value. */
  lemma UpdatedShowsEditor(blocks: seq<CodeBlock>, id: string, v: real, i: nat)
    requires i < |blocks| && blocks[i].id == id
    ensures ShowsValueEditor(Updated(blocks, id, v)[i])
  {
  }
}

/**
 * The inventory ledger held by the application shell (App.tsx): a sequence of
 * entries kept most recent first, a product catalogue, and the three handlers
 * and one callback that replace them. The handlers validate nothing: they
 * accept duplicate tags, ignore an unknown tag and replace every entry that
 * carries the tag they are given.
 */
module InventoryLedger {
  import opened Types

  // ---------------------------------------------------------------------------
  // The new arrays the handlers build, as pure functions
  // ---------------------------------------------------------------------------

  /** The list after recording one entry: the entry in front of all earlier ones (App.tsx:98). */
  function Prepend(entry: InventoryEntry, inventory: seq<InventoryEntry>): (r: seq<InventoryEntry>)
    ensures |r| == |inventory| + 1
    ensures r[0] == entry
    ensures r[1..] == inventory
  {
    [entry] + inventory
  }

  /**
   * The list after an update by tag (App.tsx:104): each entry whose tag is
   * `tag` is swapped for `updated` at its own position; the others stay.
   */
  function ReplaceByTag(inventory: seq<InventoryEntry>, tag: string, updated: InventoryEntry): (r: seq<InventoryEntry>)
    ensures |r| == |inventory|
  {
    if inventory == [] then []
    else
      [if inventory[0].tag == tag then updated else inventory[0]]
      + ReplaceByTag(inventory[1..], tag, updated)
  }

  /** The list after a bulk load: the batch, in its own order, ahead of the old entries (App.tsx:110). */
  function BulkLoad(batch: seq<InventoryEntry>, inventory: seq<InventoryEntry>): (r: seq<InventoryEntry>)
    ensures |r| == |batch| + |inventory|
    ensures r[..|batch|] == batch
    ensures r[|batch|..] == inventory
  {
    batch + inventory
  }

  /** The catalogue after adding a product: the product at its end (App.tsx:166). */
  function AppendProduct(products: seq<Product>, p: Product): (r: seq<Product>)
    ensures |r| == |products| + 1
    ensures r[|products|] == p
    ensures r[..|products|] == products
  {
    products + [p]
  }

  /**
   * Reference reading of a bulk load: record the batch one entry at a time
   * with Prepend, from its last entry to its first.
   */
  function AddEach(batch: seq<InventoryEntry>, inventory: seq<InventoryEntry>): seq<InventoryEntry>
  {
    if batch == [] then inventory
    else Prepend(batch[0], AddEach(batch[1..], inventory))
  }

  /** The tag-keyed replacement one position at a time. */
  ghost predicate ReplacedAt(before: seq<InventoryEntry>, after: seq<InventoryEntry>, tag: string, updated: InventoryEntry)
  {
    |after| == |before| &&
    forall i :: 0 <= i < |before| ==> after[i] == if before[i].tag == tag then updated else before[i]
  }

  // ---------------------------------------------------------------------------
  // Adding an entry
  // ---------------------------------------------------------------------------

  /**
   * Recording an entry whose tag is already present succeeds: afterwards two
   * positions carry that tag, and each earlier entry is still there, one place on.
   */
  lemma AddAcceptsDuplicateTag(entry: InventoryEntry, inventory: seq<InventoryEntry>, k: nat)
    requires k < |inventory| && inventory[k].tag == entry.tag
    ensures Prepend(entry, inventory)[0].tag == Prepend(entry, inventory)[k + 1].tag == entry.tag
    ensures forall i :: 0 <= i < |inventory| ==> Prepend(entry, inventory)[i + 1] == inventory[i]
  {
  }

  // ---------------------------------------------------------------------------
  // Updating by tag
  // ---------------------------------------------------------------------------

  /** Position by position: the new entry where the old tag matched, the old entry elsewhere. */
  lemma {:induction false} ReplaceByTagAt(inventory: seq<InventoryEntry>, tag: string, updated: InventoryEntry, i: nat)
    requires i < |inventory|
    ensures ReplaceByTag(inventory, tag, updated)[i] == if inventory[i].tag == tag then updated else inventory[i]
  {
    if i > 0 {
      ReplaceByTagAt(inventory[1..], tag, updated, i - 1);
    }
  }

  /** The update keeps length and order and replaces every matching entry, not just the first. */
  lemma {:induction false} ReplaceByTagIsPointwise(inventory: seq<InventoryEntry>, tag: string, updated: InventoryEntry)
    ensures ReplacedAt(inventory, ReplaceByTag(inventory, tag, updated), tag, updated)
  {
    forall i | 0 <= i < |inventory| {
      ReplaceByTagAt(inventory, tag, updated, i);
    }
  }

  /**
   * The update leaves the ledger as it was exactly when every entry carrying
   * the tag already equals the replacement.
   */
  lemma {:induction false} ReplaceByTagUnchangedIff(inventory: seq<InventoryEntry>, tag: string, updated: InventoryEntry)
    ensures ReplaceByTag(inventory, tag, updated) == inventory
        <==> forall i :: 0 <= i < |inventory| && inventory[i].tag == tag ==> inventory[i] == updated
  {
    ReplaceByTagIsPointwise(inventory, tag, updated);
  }

  /** An update naming a tag no entry carries is a silent no-op. */
  lemma {:induction false} UpdateUnknownTagIsNoOp(inventory: seq<InventoryEntry>, tag: string, updated: InventoryEntry)
    requires forall i :: 0 <= i < |inventory| ==> inventory[i].tag != tag
    ensures ReplaceByTag(inventory, tag, updated) == inventory
  {
    ReplaceByTagUnchangedIff(inventory, tag, updated);
  }

  /**
   * The replacement is not required to keep the tag: when its tag differs,
   * no entry carries the old tag afterwards; when it keeps the tag, every
   * position keeps its tag.
   */
  lemma {:induction false} ReplaceByTagTags(inventory: seq<InventoryEntry>, tag: string, updated: InventoryEntry)
    ensures updated.tag != tag ==>
      forall i :: 0 <= i < |inventory| ==> ReplaceByTag(inventory, tag, updated)[i].tag != tag
    ensures updated.tag == tag ==>
      forall i :: 0 <= i < |inventory| ==> ReplaceByTag(inventory, tag, updated)[i].tag == inventory[i].tag
  {
    ReplaceByTagIsPointwise(inventory, tag, updated);
  }

  /** Applying the same update twice gives what applying it once gives, whatever the replacement's tag. */
  lemma {:induction false} ReplaceByTagIdempotent(inventory: seq<InventoryEntry>, tag: string, updated: InventoryEntry)
    ensures ReplaceByTag(ReplaceByTag(inventory, tag, updated), tag, updated) == ReplaceByTag(inventory, tag, updated)
  {
    if inventory != [] {
      var once := ReplaceByTag(inventory, tag, updated);
      assert once[1..] == ReplaceByTag(inventory[1..], tag, updated);
      ReplaceByTagIdempotent(inventory[1..], tag, updated);
    }
  }

  /** Updating a concatenation updates each part on its own. */
  lemma {:induction false} ReplaceByTagConcat(a: seq<InventoryEntry>, b: seq<InventoryEntry>, tag: string, updated: InventoryEntry)
    ensures ReplaceByTag(a + b, tag, updated) == ReplaceByTag(a, tag, updated) + ReplaceByTag(b, tag, updated)
  {
    if a == [] {
      assert a + b == b;
    } else {
      assert (a + b)[1..] == a[1..] + b;
      ReplaceByTagConcat(a[1..], b, tag, updated);
    }
  }

  /** An update after a bulk load acts on the batch and on the earlier entries alike. */
  lemma UpdateAfterBulkLoad(batch: seq<InventoryEntry>, inventory: seq<InventoryEntry>, tag: string, updated: InventoryEntry)
    ensures ReplaceByTag(BulkLoad(batch, inventory), tag, updated)
         == BulkLoad(ReplaceByTag(batch, tag, updated), ReplaceByTag(inventory, tag, updated))
  {
    ReplaceByTagConcat(batch, inventory, tag, updated);
  }

  // ---------------------------------------------------------------------------
  // Bulk loading
  // ---------------------------------------------------------------------------

  /** A bulk load is the same as adding the batch's entries one by one, last first. */
  lemma {:induction false} BulkLoadIsRepeatedAdd(batch: seq<InventoryEntry>, inventory: seq<InventoryEntry>)
    ensures BulkLoad(batch, inventory) == AddEach(batch, inventory)
  {
    if batch != [] {
      BulkLoadIsRepeatedAdd(batch[1..], inventory);
      assert batch + inventory == [batch[0]] + (batch[1..] + inventory);
    }
  }

  /** An empty batch changes nothing; a one-entry batch is the same as adding that entry. */
  lemma BulkLoadSmallBatches(entry: InventoryEntry, inventory: seq<InventoryEntry>)
    ensures BulkLoad([], inventory) == inventory
    ensures BulkLoad([entry], inventory) == Prepend(entry, inventory)
  {
  }

  /** Two loads in a row equal one load of the later batch followed by the earlier one. */
  lemma BulkLoadTwice(first: seq<InventoryEntry>, second: seq<InventoryEntry>, inventory: seq<InventoryEntry>)
    ensures BulkLoad(second, BulkLoad(first, inventory)) == BulkLoad(second + first, inventory)
  {
    assert second + (first + inventory) == (second + first) + inventory;
  }

  // ---------------------------------------------------------------------------
  // The application state
  // ---------------------------------------------------------------------------

  /**
   * The state App keeps (App.tsx:22-24). Each inventory handler assigns the
   * freshly built array and returns it: that is the snapshot handed to the
   * cloud sync, which itself is not modelled.
   */
  class Ledger {
    /** Entries, most recent first. */
    var inventory: seq<InventoryEntry>
    /** The product catalogue. */
    var products: seq<Product>
    /** Incidents: read by the dashboard; the source has no setter for them. */
    const incidents: seq<OperationalIncident>

    /** Start-up state: an empty ledger and the initial catalogue (App.tsx:22-24). */
    constructor (initialProducts: seq<Product>)
      ensures inventory == [] && products == initialProducts && incidents == []
    {
      inventory := [];
      products := initialProducts;
      incidents := [];
    }

    /** addInventoryEntry (App.tsx:97-101): no check on the entry or its tag. */
    method AddInventoryEntry(entry: InventoryEntry) returns (snapshot: seq<InventoryEntry>)
      modifies this
      ensures inventory == Prepend(entry, old(inventory))
      ensures products == old(products)
      ensures snapshot == inventory
    {
      var newInventory := Prepend(entry, inventory);
      inventory := newInventory;
      snapshot := newInventory;
    }

    /** updateInventoryEntry (App.tsx:103-107): keyed replacement of every match. */
    method UpdateInventoryEntry(tag: string, updatedEntry: InventoryEntry) returns (snapshot: seq<InventoryEntry>)
      modifies this
      ensures inventory == ReplaceByTag(old(inventory), tag, updatedEntry)
      ensures ReplacedAt(old(inventory), inventory, tag, updatedEntry)
      ensures (forall i :: 0 <= i < |old(inventory)| ==> old(inventory)[i].tag != tag) ==> inventory == old(inventory)
      ensures products == old(products)
      ensures snapshot == inventory
    {
      var newInventory := ReplaceByTag(inventory, tag, updatedEntry);
      ReplaceByTagIsPointwise(inventory, tag, updatedEntry);
      ReplaceByTagUnchangedIff(inventory, tag, updatedEntry);
      inventory := newInventory;
      snapshot := newInventory;
    }

    /** bulkLoadInventory (App.tsx:109-113): the batch is put in front unchecked. */
    method BulkLoadInventory(entries: seq<InventoryEntry>) returns (snapshot: seq<InventoryEntry>)
      modifies this
      ensures inventory == BulkLoad(entries, old(inventory))
      ensures inventory == AddEach(entries, old(inventory))
      ensures products == old(products)
      ensures snapshot == inventory
    {
      var newInventory := BulkLoad(entries, inventory);
      BulkLoadIsRepeatedAdd(entries, inventory);
      inventory := newInventory;
      snapshot := newInventory;
    }

    /** The onAddProduct callback (App.tsx:166): append to the catalogue. */
    method AddProduct(p: Product)
      modifies this
      ensures products == AppendProduct(old(products), p)
      ensures inventory == old(inventory)
    {
      products := AppendProduct(products, p);
    }
  }
}

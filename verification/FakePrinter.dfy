/**
 The printing device and its bounded memory of idempotency keys.
 */
module FakePrinter {
  import opened Domain
  import opened TicketHash

  const LEDGER_SIZE := 500

  datatype PrintTicketResponse = PrintTicketResponse(receiptId: Id, printed: bool, duplicate: bool)

  // The last keys that came out on paper, at most as many as the ledger holds, oldest first.
  function Remembered(paper: seq<Hash>): (ledger: seq<Hash>)
    ensures |ledger| <= LEDGER_SIZE
  {
    if |paper| <= LEDGER_SIZE then paper else paper[|paper| - LEDGER_SIZE..]
  }

  class Printer {
    // The ledger in insertion order, and the receipt each key was given.
    var ledger: seq<Hash>
    var receipts: map<Hash, Id>
    var prints: nat
    // Every ticket that physically came out.
    ghost var paper: seq<Hash>

    ghost predicate Valid()
      reads this
    {
      && ledger == Remembered(paper) && prints == |paper| && SpacedOut(paper)
      && (forall key: Hash :: key in receipts <==> key in ledger)
    }

    constructor ()
      ensures Valid() && paper == []
    {
      ledger, receipts, prints, paper := [], map[], 0, [];
    }

    method Accept(key: Hash, freshReceipt: Id) returns (response: PrintTicketResponse)
      requires Valid()
      modifies this
      ensures Valid()
      ensures response.printed <==> key !in Remembered(old(paper))
      ensures response.duplicate <==> !response.printed
      ensures paper == if response.printed then old(paper) + [key] else old(paper)
      ensures !response.printed ==> old(receipts)[key] == response.receiptId && receipts == old(receipts)
      ensures response.printed ==> key in receipts && receipts[key] == response.receiptId == freshReceipt
      ensures forall k <- old(receipts) :: k in receipts ==> receipts[k] == old(receipts)[k]
    {
      if key in receipts {
        return PrintTicketResponse(receipts[key], false, true);
      }
      PrintedApart(paper, key);
      Remember(key, freshReceipt);
      prints := prints + 1;
      paper := paper + [key];
      response := PrintTicketResponse(freshReceipt, true, false);
    }

    // The ledger gains a key and its receipt, and loses the oldest when it is full.
    method Remember(key: Hash, freshReceipt: Id)
      requires ledger == Remembered(paper) && SpacedOut(paper) && key !in ledger
      requires forall k: Hash :: k in receipts <==> k in ledger
      modifies this`ledger, this`receipts
      ensures ledger == Remembered(paper + [key])
      ensures forall k: Hash :: k in receipts <==> k in ledger
      ensures key in receipts && receipts[key] == freshReceipt
      ensures forall k <- old(receipts) :: k in receipts ==> receipts[k] == old(receipts)[k]
    {
      ledger := ledger + [key];
      receipts := receipts[key := freshReceipt];
      if |ledger| > LEDGER_SIZE {
        LedgerIsDistinct(paper, key);
        receipts := receipts - {ledger[0]};
        ledger := ledger[1..];
      }
    }
  }

  /** Between two prints of one key at least `LEDGER_SIZE` others, all different, came out. */
  predicate SpacedOut(paper: seq<Hash>) {
    forall i, j :: 0 <= i < j < |paper| && j - i <= LEDGER_SIZE ==> paper[i] != paper[j]
  }

  lemma PrintedApart(paper: seq<Hash>, key: Hash)
    requires SpacedOut(paper) && key !in Remembered(paper)
    ensures SpacedOut(paper + [key])
  {
    var longer := paper + [key];
    forall i, j | 0 <= i < j < |longer| && j - i <= LEDGER_SIZE ensures longer[i] != longer[j] {
      if j == |paper| {
        var start := |paper| - |Remembered(paper)|;
        assert Remembered(paper)[i - start] == paper[i];
      }
    }
  }

  lemma LedgerIsDistinct(paper: seq<Hash>, key: Hash)
    requires SpacedOut(paper) && key !in Remembered(paper) && |Remembered(paper)| == LEDGER_SIZE
    ensures var ledger := Remembered(paper) + [key]; forall i :: 1 <= i < |ledger| ==> ledger[i] != ledger[0]
    ensures var ledger := Remembered(paper) + [key]; forall k: Hash :: k in ledger[1..] <==> k in ledger && k != ledger[0]
  {
    var ledger, start := Remembered(paper) + [key], |paper| - LEDGER_SIZE;
    assert ledger[0] == paper[start] && ledger[0] in Remembered(paper);
    forall i | 1 <= i < |ledger| ensures ledger[i] != ledger[0] {
      if i < LEDGER_SIZE { assert ledger[i] == paper[start + i]; }
    }
    assert ledger == [ledger[0]] + ledger[1..];
    forall k: Hash | k in ledger[1..] ensures k != ledger[0] {
      var i :| 0 <= i < |ledger[1..]| && ledger[1..][i] == k;
      assert ledger[i + 1] == k;
    }
  }

  // A device's life from power-on as the keys it is sent.
  function PaperOf(keys: seq<Hash>): seq<Hash> {
    if keys == [] then []
    else
      var before, key := PaperOf(keys[..|keys| - 1]), keys[|keys| - 1];
      if key in Remembered(before) then before else before + [key]
  }

  /**
   Whatever a device is sent, and however often, a key is on paper again only after 500 other keys, no two
   alike, have come out since; and every key is on paper.
   */
  lemma {:induction false} ReprintsAreSpacedOut(keys: seq<Hash>)
    ensures SpacedOut(PaperOf(keys))
    ensures var paper := PaperOf(keys); forall i, j :: 0 <= i < j < |paper| && paper[i] == paper[j] ==> j - i > 500
    ensures forall key <- keys :: key in PaperOf(keys)
  {
    if keys != [] {
      var before, key := keys[..|keys| - 1], keys[|keys| - 1];
      ReprintsAreSpacedOut(before);
      if key !in Remembered(PaperOf(before)) { PrintedApart(PaperOf(before), key); }
      assert forall k :: k in keys ==> k in before || k == key;
      assert forall k :: k in Remembered(PaperOf(before)) ==> k in PaperOf(before);
    }
  }
}

/** The queue object: the words and the buffer of Spsc.Ring, updated in place by the same
    atomic steps.  The history and the two program counters are ghost. */
module SpscQueueObject {
  import opened Wrappers
  import opened Bits
  import opened Spsc

  class SpscQueue<T> {
    const capacity: nat
    const mask: nat
    const buffer: array<Option<T>>

    var tailWord: nat
    var headWord: nat
    var consumerHead: nat
    var consumerCachedTail: nat
    var producerTail: nat
    var producerCachedHead: nat

    ghost var past: History<T>
    ghost var producer: ProducerPc<T>
    ghost var consumer: ConsumerPc<T>

    ghost function View(): Queue<T>
      reads this, buffer
    {
      Queue(Ring(capacity, tailWord, headWord, consumerHead, consumerCachedTail,
                 producerTail, producerCachedHead, buffer[..]),
            past, producer, consumer)
    }

    ghost predicate Valid()
      reads this, buffer
    {
      && Inv(View())
      && mask == capacity - 1
    }

    /** The published items not yet popped. */
    ghost function Contents(): seq<T>
      reads this, buffer
      requires Valid()
    {
      Fifo(View())
    }

    constructor (capacity: nat)
      requires GoodCapacity(capacity)
      ensures Valid() && fresh(buffer)
      ensures View() == Init(capacity)
    {
      this.capacity := capacity;
      mask := capacity - 1;
      buffer := new Option<T>[capacity](_ => None);
      tailWord, headWord, consumerHead, consumerCachedTail := 0, 0, 0, 0;
      producerTail, producerCachedHead := 0, 0;
      past, producer, consumer := History([], [], 0, 0, 0), PIdle, CIdle;
      new;
      assert buffer[..] == seq(capacity, _ => None);
      InitInv<T>(capacity);
    }

    /** try_emplace up to its decision; `loaded` is what an acquire load of the head returns. */
    method DecidePush(item: T, ghost loaded: nat, loadedWord: nat) returns (go: bool)
      requires Valid() && Enabled(View(), PushDecide(item, loaded)) && loadedWord == loaded % WORD
      modifies this
      ensures Valid()
      ensures View() == Apply(old(View()), PushDecide(item, loaded))
      ensures go == producer.PReady?
    {
      StepInv(View(), PushDecide(item, loaded));
      go := true;
      if Sub64(producerTail, producerCachedHead) == capacity {
        producerCachedHead := loadedWord;
        past := past.(cachedHead := loaded, seenHead := loaded);
        go := Sub64(producerTail, producerCachedHead) != capacity;
      }
      if go { producer := PReady(item); }
    }

    method ConstructItem(item: T)
      requires Valid() && producer == PReady(item)
      modifies this, buffer
      ensures Valid()
      ensures CanApply(old(View()), PushConstruct) && View() == Apply(old(View()), PushConstruct)
    {
      StepInv(View(), PushConstruct);
      buffer[And(producerTail, mask)] := Some(item);
      producer := PWritten(item);
    }

    method PublishTail()
      requires Valid() && producer.PWritten?
      modifies this
      ensures Valid()
      ensures View() == Apply(old(View()), PushPublish)
    {
      StepInv(View(), PushPublish);
      producerTail := Inc64(producerTail);
      tailWord := producerTail;
      past := past.(pushed := past.pushed + [producer.item]);
      producer := PIdle;
    }

    method DecidePop(ghost loaded: nat, loadedWord: nat) returns (go: bool)
      requires Valid() && Enabled(View(), PopDecide(loaded)) && loadedWord == loaded % WORD
      modifies this
      ensures Valid()
      ensures View() == Apply(old(View()), PopDecide(loaded))
      ensures go == consumer.CReady?
    {
      StepInv(View(), PopDecide(loaded));
      go := true;
      if consumerHead == consumerCachedTail {
        consumerCachedTail := loadedWord;
        past := past.(cachedTail := loaded);
        go := consumerHead != consumerCachedTail;
      }
      if go { consumer := CReady; }
    }

    method MoveItem() returns (item: T)
      requires Valid() && consumer.CReady?
      modifies this, buffer
      ensures Valid()
      ensures CanApply(old(View()), PopMove) && View() == Apply(old(View()), PopMove)
      ensures consumer == CTaken(item)
    {
      StepInv(View(), PopMove);
      var i := And(consumerHead, mask);
      item := buffer[i].value;
      buffer[i] := None;
      consumer := CTaken(item);
    }

    method PublishHead()
      requires Valid() && consumer.CTaken?
      modifies this
      ensures Valid()
      ensures View() == Apply(old(View()), PopPublish)
    {
      StepInv(View(), PopPublish);
      consumerHead := Inc64(consumerHead);
      headWord := consumerHead;
      past := past.(popped := past.popped + [consumer.item]);
      consumer := CIdle;
    }

    /** A whole try_emplace that no other step interrupts. */
    method TryEmplace(item: T) returns (ok: bool)
      requires Valid() && producer.PIdle?
      modifies this, buffer
      ensures Valid() && producer.PIdle? && consumer == old(consumer)
      ensures ok <==> |old(Contents())| < capacity
      ensures Contents() == if ok then old(Contents()) + [item] else old(Contents())
    {
      PushRefusedIffFull(View(), item, View().Head());
      StepRefinesFifo(View(), PushDecide(item, View().Head()));
      ok := DecidePush(item, |past.popped|, headWord);
      if ok {
        StepRefinesFifo(View(), PushConstruct);
        ConstructItem(item);
        StepRefinesFifo(View(), PushPublish);
        PublishTail();
      }
    }

    /** A whole try_pop that no other step interrupts. */
    method TryPop() returns (item: Option<T>)
      requires Valid() && consumer.CIdle?
      modifies this, buffer
      ensures Valid() && consumer.CIdle? && producer == old(producer)
      ensures item.None? <==> old(Contents()) == []
      ensures item.None? ==> Contents() == old(Contents())
      ensures item.Some? ==> old(Contents()) == [item.value] + Contents()
    {
      PopRefusedIffEmpty(View(), View().Tail());
      StepRefinesFifo(View(), PopDecide(View().Tail()));
      var go := DecidePop(|past.pushed|, tailWord);
      item := None;
      if go {
        StepRefinesFifo(View(), PopMove);
        var moved := MoveItem();
        StepRefinesFifo(View(), PopPublish);
        PublishHead();
        item := Some(moved);
      }
    }
  }
}

/**
 When a queue operation may succeed or fail, given how many elements were ever pushed and popped and the
 position `seen` at which the caller saw the other side's index. The ring machine keeps to these guards, and
 the pipeline uses no other property of its queues.
 */
module QueueGuards {

  predicate MayPush(capacity: nat, pushed: int, popped: int, seen: nat) {
    seen <= popped && pushed - seen < capacity
  }

  predicate MayRefuse(capacity: nat, pushed: int, popped: int, seen: nat) {
    seen <= popped && pushed - seen == capacity
  }

  predicate MayTake(pushed: int, popped: int, seen: nat) {
    popped < seen <= pushed
  }

  predicate MayMiss(pushed: int, popped: int, seen: nat) {
    seen == popped <= pushed
  }
}

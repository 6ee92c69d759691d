// What a reference-counted descriptor means to the code that uses it. fd.go implements it
// with three words; the socket code relies on nothing else.
module Guards {

  // Open until a ClosingIncRef succeeds; Exclusive once that closer's Lock has returned.
  datatype Phase = Open | Closing(owner: nat) | Exclusive(owner: nat) | Done

  datatype Guard = Guard(phase: Phase, held: seq<nat>)

  predicate Acquires(g: Guard, g': Guard, i: nat) {
    g.phase.Open? && i < |g.held| && g' == g.(held := g.held[i := g.held[i] + 1])
  }

  predicate Drops(g: Guard, g': Guard, i: nat) {
    i < |g.held| && g.held[i] > 0 && g' == g.(held := g.held[i := g.held[i] - 1])
  }

  predicate Passes(g: Guard, g': Guard, i: nat, to: nat) {
    && i < |g.held| && to < |g.held| && i != to && g.held[i] > 0
    && g' == g.(held := g.held[i := g.held[i] - 1][to := g.held[to] + 1])
  }

  predicate Marks(g: Guard, g': Guard, i: nat) {
    g.phase.Open? && i < |g.held| && g' == g.(phase := Closing(i))
  }

  predicate Excludes(g: Guard, g': Guard, i: nat) {
    && g.phase == Closing(i) && g' == g.(phase := Exclusive(i))
    && forall j :: 0 <= j < |g.held| ==> g.held[j] == 0
  }

  predicate Ends(g: Guard, g': Guard, i: nat) {
    (g.phase == Closing(i) || g.phase == Exclusive(i)) && g' == g.(phase := Done)
  }

  ghost predicate GuardStep(g: Guard, g': Guard) {
    || (exists i: nat :: Acquires(g, g', i))
    || (exists i: nat :: Drops(g, g', i))
    || (exists i: nat, to: nat :: Passes(g, g', i, to))
    || (exists i: nat :: Marks(g, g', i))
    || (exists i: nat :: Excludes(g, g', i))
    || (exists i: nat :: Ends(g, g', i))
  }
}

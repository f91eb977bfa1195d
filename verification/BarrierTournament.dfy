/**
 The tournament barrier.

 In round k a thread whose number is an odd multiple of 2^(k-1) loses to the one 2^(k-1) below it: it sets
 the winner's flag and waits on its own. Winners go on to the next round; the champion, thread 0, starts
 the wakeup, in which every winner sets its losers' flags in reverse order. One set of flags and one
 alternating sense serve any number of episodes. One step is one load or store of a flag.
 */
module BarrierTournament {
  import opened Internal

  datatype Role = Unset | Dropout | Bye | Winner | Loser | Champion

  // ---- Multiples of powers of two --------------------------------------------------------------------------

  /** i is a multiple of 2^k. */
  predicate Mult(i: nat, k: nat) { k == 0 || (i % 2 == 0 && Mult(i / 2, k - 1)) }

  /** i is an odd multiple of 2^(k-1). */
  predicate Odd(i: nat, k: nat) { k > 0 && if k == 1 then i % 2 == 1 else i % 2 == 0 && Odd(i / 2, k - 1) }

  lemma {:induction false} MultOrOdd(i: nat, k: nat)
    requires k >= 1
    ensures Mult(i, k - 1) <==> Mult(i, k) || Odd(i, k)
    ensures !(Mult(i, k) && Odd(i, k))
    decreases k
  {
    if k > 1 { MultOrOdd(i / 2, k - 1); }
  }

  lemma {:induction false} MultLess(i: nat, k: nat, m: nat)
    requires Mult(i, k) && m <= k
    ensures Mult(i, m)
    decreases k
  {
    if m > 0 { MultLess(i / 2, k - 1, m - 1); }
  }

  lemma {:induction false} MultLarge(i: nat, k: nat)
    requires Mult(i, k) && i > 0
    ensures i >= Pow2(k)
    decreases k
  {
    if k > 0 { MultLarge(i / 2, k - 1); }
  }

  lemma {:induction false} MultZero(k: nat)
    ensures Mult(0, k)
  {
    if k > 0 { MultZero(k - 1); }
  }

  /** A loser's opponent is a multiple of 2^k, and the other way round. */
  lemma {:induction false} Opponents(i: nat, k: nat)
    requires k >= 1
    ensures Odd(i, k) ==> i >= Pow2(k - 1) && Mult(i - Pow2(k - 1), k)
    ensures Mult(i, k) ==> Odd(i + Pow2(k - 1), k)
    decreases k
  {
    if k > 1 {
      Opponents(i / 2, k - 1);
      assert Pow2(k - 1) == 2 * Pow2(k - 2);
      if Odd(i, k) { assert (i - Pow2(k - 1)) / 2 == i / 2 - Pow2(k - 2); }
      if Mult(i, k) { assert (i + Pow2(k - 1)) / 2 == i / 2 + Pow2(k - 2); }
    }
  }

  lemma {:induction false} OddUnique(i: nat, k: nat, m: nat)
    requires Odd(i, k) && Odd(i, m)
    ensures k == m
    decreases k
  {
    if k > 1 && m > 1 { OddUnique(i / 2, k - 1, m - 1); }
  }

  lemma {:induction false} OddAbove(i: nat, k: nat, m: nat)
    requires Odd(i, k) && Mult(i, m)
    ensures m < k
    decreases k
  {
    if m > 0 && k > 1 { OddAbove(i / 2, k - 1, m - 1); }
  }

  /** Every thread but the first loses one round. */
  lemma {:induction false} LosesOnce(i: nat) returns (k: nat)
    requires i > 0
    ensures k >= 1 && Odd(i, k)
    decreases i
  {
    if i % 2 == 1 {
      k := 1;
    } else {
      var m := LosesOnce(i / 2);
      k := m + 1;
    }
  }

  /** Remainders by powers of two say the same. */
  lemma {:induction false} Remainders(i: nat, k: nat)
    ensures Mult(i, k) <==> i % Pow2(k) == 0
    ensures k >= 1 ==> (Odd(i, k) <==> i % Pow2(k) == Pow2(k - 1))
    decreases k
  {
    if k > 0 {
      Remainders(i / 2, k - 1);
      HalfRemainder(i, Pow2(k - 1));
    }
  }

  // ---- Roles ---------------------------------------------------------------------------------------------------

  /** The role of thread i of n in round k. Rounds after a thread's defeat have none. */
  function RoleOf(n: nat, i: nat, k: nat): Role {
    if k == 0 then Dropout
    else if Odd(i, k) then Loser
    else if i == 0 && Pow2(k) >= n then Champion
    else if Mult(i, k) then if i + Pow2(k - 1) >= n then Bye else if Pow2(k) < n then Winner else Unset
    else Unset
  }

  /** The tables of the barrier: the role of a thread in a round, the thread whose flag it sets there, and
      whether there is a single thread as far as the size tells. */
  datatype Table = Table(role: (nat, nat) -> Role, opponent: (nat, nat) -> nat, single: bool)

  function TableOf(n: nat, size: nat): Table {
    Table((i: nat, k: nat) => RoleOf(n, i, k), (i: nat, k: nat) => OpponentOf(n, i, k), size == 1)
  }

  function OpponentOf(n: nat, i: nat, k: nat): nat {
    if k == 0 then 0
    else if RoleOf(n, i, k) == Loser && i >= Pow2(k - 1) then i - Pow2(k - 1)
    else i + Pow2(k - 1)
  }

  predicate HasOpponent(r: Role) { r == Loser || r == Winner || r == Champion }

  /** Role and opponent of thread i in round k are those of the table, as far as it has any. */
  ghost predicate Filled(T: Table, i: nat, k: nat, role: Role, opponent: int) {
    && (T.role(i, k) != Unset ==> role == T.role(i, k))
    && (HasOpponent(T.role(i, k)) ==> opponent == T.opponent(i, k))
  }

  /** The initializer's choice of a role: rounds after a thread's defeat leave it as it was. */
  function Assigned(n: nat, i: nat, twok: nat, twokm1: nat, before: Role): Role
    requires twok > 0
  {
    var rest := i % twok;
    if rest == twokm1 then Loser
    else if i == 0 && twok >= n then Champion
    else if rest == 0 && i + twokm1 < n && twok < n then Winner
    else if rest == 0 && i + twokm1 >= n then Bye
    else before
  }

  lemma AssignedRole(n: nat, i: nat, k: nat, before: Role)
    requires k >= 1
    ensures RoleOf(n, i, k) != Unset ==> Assigned(n, i, Pow2(k), Pow2(k - 1), before) == RoleOf(n, i, k)
    ensures RoleOf(n, i, k) == Loser ==> i >= Pow2(k - 1)
  {
    Remainders(i, k);
    MultOrOdd(i, k);
    Opponents(i, k);
  }

  /** The initializer's inner loop. */
  method InitThread(n: nat, size: nat, i: nat, roles: array2<Role>, opponents: array2<int>, flags: array2<bool>)
    requires roles.Length0 == n && roles.Length1 == size && opponents.Length0 == n && opponents.Length1 == size
    requires flags.Length0 == n && flags.Length1 == size && size > 0 && i < n
    modifies roles, opponents, flags
    ensures forall k :: 0 <= k < size ==> !flags[i, k] && Filled(TableOf(n, size), i, k, roles[i, k], opponents[i, k])
    ensures forall j, k :: 0 <= j < n && j != i && 0 <= k < size ==>
              flags[j, k] == old(flags[j, k]) && roles[j, k] == old(roles[j, k]) &&
              opponents[j, k] == old(opponents[j, k])
  {
    flags[i, 0] := false;
    roles[i, 0] := Dropout;
    var twok, twokm1 := 2, 1;
    for k := 1 to size
      invariant twok == Pow2(k) && twokm1 == Pow2(k - 1)
      invariant forall m :: 0 <= m < k ==> !flags[i, m] && Filled(TableOf(n, size), i, m, roles[i, m], opponents[i, m])
      invariant forall j, m :: 0 <= j < n && j != i && 0 <= m < size ==>
                  flags[j, m] == old(flags[j, m]) && roles[j, m] == old(roles[j, m])
                  && opponents[j, m] == old(opponents[j, m])
    {
      AssignedRole(n, i, k, roles[i, k]);
      flags[i, k] := false;
      roles[i, k] := Assigned(n, i, twok, twokm1, roles[i, k]);
      if roles[i, k] == Loser {
        opponents[i, k] := i - twokm1;
      } else if roles[i, k] == Winner || roles[i, k] == Champion {
        opponents[i, k] := i + twokm1;
      }
      twokm1 := twok;
      twok := 2 * twok;
    }
  }

  /** The initializer fills the tables the barrier works with, and lowers the flags. */
  method InitRoles(n: nat, size: nat, roles: array2<Role>, opponents: array2<int>, flags: array2<bool>)
    requires roles.Length0 == n && roles.Length1 == size && opponents.Length0 == n && opponents.Length1 == size
    requires flags.Length0 == n && flags.Length1 == size && size > 0
    modifies roles, opponents, flags
    ensures forall i, k :: 0 <= i < n && 0 <= k < size ==>
              !flags[i, k] && Filled(TableOf(n, size), i, k, roles[i, k], opponents[i, k])
  {
    for i := 0 to n
      invariant forall j, k :: 0 <= j < i && 0 <= k < size ==>
                  !flags[j, k] && Filled(TableOf(n, size), j, k, roles[j, k], opponents[j, k])
    {
      InitThread(n, size, i, roles, opponents, flags);
    }
  }

  /** top is the number of rounds for n threads. */
  ghost predicate Covers(n: nat, top: nat) { n >= 2 && top >= 1 && n <= Pow2(top) && Pow2(top - 1) < n }

  /** The size of the tables for v threads, as the code computes it. */
  ghost function SizeOf(v: bv32): nat { Value(Log(Power2(v))) + 1 }

  /** With two or more threads it leaves room for the rounds of the bracket if and only if there are at most
      2^31 threads; beyond, it is that of a single thread. */
  lemma {:induction false} SizeCovers(v: bv32)
    requires v >= 2
    ensures Value(v) >= 2 && (Covers(Value(v), SizeOf(v) - 1) <==> v <= 0x8000_0000)
    ensures v > 0x8000_0000 ==> SizeOf(v) == 1
  {
    RoundsCover(v);
    AboveOne(v);
  }

  lemma PowBelow(n: nat, top: nat, k: nat)
    requires Covers(n, top) && k <= top
    ensures k < top ==> Pow2(k) < n
    ensures k >= 1 ==> Pow2(k - 1) < n
  {
    if k < top { PowGrows(k, top - 1); }
    if k >= 1 { PowGrows(k - 1, top - 1); }
  }

  /** The role of a thread that has not lost before round k. */
  lemma RoleBefore(n: nat, top: nat, i: nat, k: nat)
    requires Covers(n, top) && i < n && 1 <= k <= top && Mult(i, k - 1)
    ensures Odd(i, k) <==> RoleOf(n, i, k) == Loser
    ensures !Odd(i, k) ==> Mult(i, k) && RoleOf(n, i, k) == if i == 0 && k == top then Champion
                           else if i + Pow2(k - 1) >= n then Bye else Winner
    ensures k == top && i > 0 ==> Odd(i, k)
  {
    MultOrOdd(i, k);
    PowBelow(n, top, k);
    if Mult(i, k) && i > 0 { MultLarge(i, k); }
  }

  /** Every thread but the first loses exactly one round, to a thread whose role there is to wait for it, and
      has only won or sat out the rounds before. */
  lemma Defeat(n: nat, top: nat, i: nat) returns (k: nat)
    requires Covers(n, top) && 0 < i < n
    ensures 1 <= k <= top && Odd(i, k) && RoleOf(n, i, k) == Loser
    ensures forall m: nat :: 1 <= m < k ==> RoleOf(n, i, m) == Winner || RoleOf(n, i, m) == Bye
    ensures forall m: nat :: 1 <= m <= top && RoleOf(n, i, m) == Loser ==> m == k
    ensures i >= Pow2(k - 1)
    ensures var j := i - Pow2(k - 1);
            RoleOf(n, j, k) == Winner || (j == 0 && k == top && RoleOf(n, j, k) == Champion)
  {
    k := LosesOnce(i);
    MultOrOdd(i, k);
    MultLarge(i, k - 1);
    if k > top { PowGrows(top, k - 1); }
    forall m: nat | 1 <= m < k ensures RoleOf(n, i, m) == Winner || RoleOf(n, i, m) == Bye {
      MultLess(i, k - 1, m - 1);
      MultLess(i, k - 1, m);
      MultOrOdd(i, m);
      RoleBefore(n, top, i, m);
    }
    forall m: nat | 1 <= m <= top && RoleOf(n, i, m) == Loser ensures m == k { OddUnique(i, m, k); }
    Opponents(i, k);
    var j := i - Pow2(k - 1);
    MultLess(j, k, k - 1);
    MultOrOdd(j, k);
    RoleBefore(n, top, j, k);
  }

  // ---- The bracket ----------------------------------------------------------------------------------------------

  /** For every thread but the first the round it loses, and to whom; and whom a thread beats in a round. */
  datatype Bracket = Bracket(lose: nat -> nat, foe: nat -> nat, beats: (nat, nat) -> nat)

  ghost predicate Proper(B: Bracket, n: nat, top: nat) {
    && n >= 2 && top >= 1 && B.lose(0) == top + 1
    && (forall i: nat {:trigger B.lose(i)} :: 0 < i < n ==> 1 <= B.lose(i) <= top)
    && (forall i: nat {:trigger B.foe(i)} :: 0 < i < n ==>
          B.foe(i) < i && B.lose(i) < B.lose(B.foe(i)) && B.beats(B.foe(i), B.lose(i)) == i)
  }

  /** Thread t beats thread i in round k. */
  ghost predicate Beats(B: Bracket, n: nat, t: nat, i: nat, k: nat) {
    0 < i < n && B.foe(i) == t && B.lose(i) == k
  }

  /** What the table says of a thread that is still in the tournament in round r. */
  ghost predicate RoleFits(B: Bracket, T: Table, n: nat, top: nat, t: nat, r: nat) {
    match T.role(t, r)
    case Loser => t > 0 && r == B.lose(t) && T.opponent(t, r) == B.foe(t)
    case Champion => t == 0 && r == top && Beats(B, n, t, T.opponent(t, r), r)
    case Winner => r < B.lose(t) && !(t == 0 && r == top) && Beats(B, n, t, T.opponent(t, r), r)
    case Bye => r < B.lose(t) && !(t == 0 && r == top) && forall i: nat :: !Beats(B, n, t, i, r)
    case _ => false
  }

  ghost predicate Follows(B: Bracket, T: Table, n: nat, top: nat) {
    && Proper(B, n, top) && !T.single
    && (forall t: nat {:trigger T.role(t, 0)} :: T.role(t, 0) == Dropout)
    && (forall t: nat, r: nat {:trigger T.role(t, r)} ::
          t < n && 1 <= r <= top && r <= B.lose(t) ==> RoleFits(B, T, n, top, t, r))
  }

  /** The round thread i loses; the champion none. */
  ghost function LoseOf(top: nat, i: nat): nat {
    if k: nat :| Odd(i, k) then k else top + 1
  }

  ghost function FoeOf(top: nat, i: nat): nat {
    var k := LoseOf(top, i);
    if k >= 1 && i >= Pow2(k - 1) then i - Pow2(k - 1) else 0
  }

  function BeatsOf(j: nat, k: nat): nat { if k == 0 then 0 else j + Pow2(k - 1) }

  ghost function BracketOf(top: nat): Bracket {
    Bracket((i: nat) => LoseOf(top, i), (i: nat) => FoeOf(top, i), (j: nat, k: nat) => BeatsOf(j, k))
  }

  lemma LoseFacts(top: nat, i: nat)
    ensures i == 0 ==> LoseOf(top, i) == top + 1
    ensures i > 0 ==> Odd(i, LoseOf(top, i))
  {
    if i > 0 {
      var k := LosesOnce(i);
    } else {
      forall k: nat ensures !Odd(0, k) {
        if k > 0 {
          MultZero(k);
          MultOrOdd(0, k);
        }
      }
    }
  }

  lemma DefeatFacts(n: nat, top: nat, i: nat)
    requires Covers(n, top) && 0 < i < n
    ensures 1 <= LoseOf(top, i) <= top && FoeOf(top, i) < i && LoseOf(top, i) < LoseOf(top, FoeOf(top, i))
    ensures Odd(i, LoseOf(top, i)) && i == FoeOf(top, i) + Pow2(LoseOf(top, i) - 1)
  {
    var k := Defeat(n, top, i);
    LoseFacts(top, i);
    OddUnique(i, k, LoseOf(top, i));
    Opponents(i, k);
    var j := FoeOf(top, i);
    LoseFacts(top, j);
    if j > 0 { OddAbove(j, LoseOf(top, j), k); }
  }

  lemma BracketProper(n: nat, top: nat)
    requires Covers(n, top)
    ensures Proper(BracketOf(top), n, top)
  {
    var B := BracketOf(top);
    LoseFacts(top, 0);
    forall i: nat | 0 < i < n
      ensures 1 <= B.lose(i) <= top && B.foe(i) < i && B.lose(i) < B.lose(B.foe(i)) && B.beats(B.foe(i), B.lose(i)) == i
    {
      DefeatFacts(n, top, i);
    }
  }

  /** A thread that is still in beats the thread 2^(r-1) above it, if there is one, and no other. */
  lemma Rival(n: nat, top: nat, t: nat, r: nat, i: nat)
    requires Covers(n, top) && t < n && 1 <= r <= top && Mult(t, r) && 0 < i < n
    ensures FoeOf(top, i) == t && LoseOf(top, i) == r <==> i == t + Pow2(r - 1)
  {
    DefeatFacts(n, top, i);
    Opponents(t, r);
    if i == t + Pow2(r - 1) { OddUnique(i, r, LoseOf(top, i)); }
  }

  /** A thread has not lost before the round it loses. */
  lemma StillIn(n: nat, top: nat, t: nat, r: nat)
    requires Covers(n, top) && t < n && 1 <= r <= top && r <= LoseOf(top, t)
    ensures Mult(t, r - 1) && (Odd(t, r) <==> t > 0 && r == LoseOf(top, t))
  {
    if t > 0 {
      DefeatFacts(n, top, t);
      MultOrOdd(t, LoseOf(top, t));
      MultLess(t, LoseOf(top, t) - 1, r - 1);
      if Odd(t, r) { OddUnique(t, r, LoseOf(top, t)); }
    } else {
      MultZero(r - 1);
      LoseFacts(top, 0);
      MultZero(r);
      MultOrOdd(0, r);
    }
  }

  lemma RoleFact(n: nat, top: nat, size: nat, t: nat, r: nat)
    requires Covers(n, top) && t < n && 1 <= r <= top && r <= LoseOf(top, t)
    ensures RoleFits(BracketOf(top), TableOf(n, size), n, top, t, r)
  {
    var B := BracketOf(top);
    StillIn(n, top, t, r);
    RoleBefore(n, top, t, r);
    PowBelow(n, top, r);
    LoseFacts(top, 0);
    if Odd(t, r) {
      DefeatFacts(n, top, t);
    } else {
      forall i: nat | 0 < i < n ensures Beats(B, n, t, i, r) <==> i == t + Pow2(r - 1) { Rival(n, top, t, r, i); }
    }
  }

  /** The tables the initializer fills describe this bracket. */
  lemma TableFollows(n: nat, top: nat, size: nat)
    requires Covers(n, top) && size == top + 1
    ensures Follows(BracketOf(top), TableOf(n, size), n, top)
  {
    var B, T := BracketOf(top), TableOf(n, size);
    BracketProper(n, top);
    forall t: nat, r: nat | t < n && 1 <= r <= top && r <= B.lose(t) ensures RoleFits(B, T, n, top, t, r) {
      RoleFact(n, top, size, t, r);
    }
  }

  // ---- The machine ------------------------------------------------------------------------------------------

  datatype PC = Outside | Up(r: nat) | Wait(r: nat) | Down(r: nat)

  /** `done` counts the episodes the thread has returned from. */
  datatype Thread = Thread(sense: bool, pc: PC, done: nat)

  datatype State = State(threads: seq<Thread>, flags: seq<seq<bool>>)

  function Init(n: nat, size: nat): State {
    State(seq(n, _ => Thread(true, Outside, 0)), seq(n, _ => seq(size, _ => false)))
  }

  function SetPC(s: State, t: nat, pc: PC): State
    requires t < |s.threads|
  {
    s.(threads := s.threads[t := s.threads[t].(pc := pc)])
  }

  function SetFlag(s: State, i: nat, k: nat, v: bool): State {
    if i < |s.flags| && k < |s.flags[i]| then s.(flags := s.flags[i := s.flags[i][k := v]]) else s
  }

  function Flag(s: State, i: nat, k: nat): bool { i < |s.flags| && k < |s.flags[i]| && s.flags[i][k] }

  /** One step of thread t. */
  function Step(T: Table, s: State, t: nat): State {
    if t >= |s.threads| then s
    else
      var x := s.threads[t];
      match x.pc
      case Outside => if T.single then s.(threads := s.threads[t := x.(done := x.done + 1)]) else SetPC(s, t, Up(1))
      case Up(r) =>
        (match T.role(t, r)
         case Bye => SetPC(s, t, Up(r + 1))
         case Winner => if Flag(s, t, r) == x.sense then SetPC(s, t, Up(r + 1)) else s
         case Champion => if Flag(s, t, r) == x.sense then SetPC(s, t, Down(r)) else s
         case Loser => SetPC(SetFlag(s, T.opponent(t, r), r, x.sense), t, Wait(r))
         case _ => s)
      case Wait(r) => if r >= 1 && Flag(s, t, r) == x.sense then SetPC(s, t, Down(r - 1)) else s
      case Down(r) =>
        if r == 0 then s.(threads := s.threads[t := Thread(!x.sense, Outside, x.done + 1)])
        else if T.role(t, r) == Winner || T.role(t, r) == Champion then
          SetPC(SetFlag(s, T.opponent(t, r), r, x.sense), t, Down(r - 1))
        else SetPC(s, t, Down(r - 1))
  }

  function Run(T: Table, n: nat, size: nat, ts: seq<nat>): State {
    if ts == [] then Init(n, size) else Step(T, Run(T, n, size, ts[..|ts| - 1]), ts[|ts| - 1])
  }

  // ---- Counting ----------------------------------------------------------------------------------------------

  function Entered(x: Thread): nat { x.done + if x.pc.Outside? then 0 else 1 }

  /** The episodes in which the thread is through with round k on the way up. */
  function Through(x: Thread, k: nat): nat { if x.pc.Up? && x.pc.r <= k then x.done else Entered(x) }

  /** The episodes in which the thread has released its loser of round k. */
  function Released(x: Thread, k: nat): nat { x.done + if x.pc.Down? && x.pc.r < k then 1 else 0 }

  /** The episodes in which the thread has been woken up. */
  function Woken(x: Thread): nat { x.done + if x.pc.Down? then 1 else 0 }

  predicate IsOdd(e: nat) { e % 2 == 1 }

  /** A thread that loses round l may be at this program counter. */
  predicate PcOk(l: nat, top: nat, x: Thread) {
    && x.sense == IsOdd(x.done + 1)
    && match x.pc
       case Outside => true
       case Up(r) => 1 <= r <= l && r <= top
       case Wait(r) => r == l && 1 <= r <= top
       case Down(r) => r < l
  }

  /** Loser x and winner y of round k, the winner's flag `up` and the loser's flag `down`. */
  predicate Pair(x: Thread, y: Thread, k: nat, up: bool, down: bool) {
    && Released(y, k) <= Through(y, k) <= Through(x, k) <= Released(y, k) + 1
    && (x.pc != Wait(k) ==> Through(x, k) == Released(y, k))
    && up == IsOdd(Through(x, k)) && down == IsOdd(Released(y, k))
  }

  /** Thread y stands to its opponents of round k as x did. */
  predicate Alike(x: Thread, y: Thread, k: nat) {
    Through(y, k) == Through(x, k) && Released(y, k) == Released(x, k) && (y.pc == Wait(k) <==> x.pc == Wait(k))
  }

  /** The loser sets the winner's flag. */
  lemma Arrives(x: Thread, y: Thread, k: nat, up: bool, down: bool)
    requires Pair(x, y, k, up, down) && x.pc == Up(k) && x.sense == IsOdd(x.done + 1)
    ensures Pair(x.(pc := Wait(k)), y, k, x.sense, down)
  {
  }

  /** The winner sees the flag of this episode, not of the last. */
  lemma Sees(x: Thread, y: Thread, k: nat, up: bool, down: bool, pc: PC)
    requires Pair(x, y, k, up, down) && y.pc == Up(k) && y.sense == IsOdd(y.done + 1) && up == y.sense
    requires pc == Up(k + 1) || pc == Down(k)
    ensures Pair(x, y.(pc := pc), k, up, down)
  {
  }

  /** The winner sets the loser's flag. */
  lemma Releases(x: Thread, y: Thread, k: nat, up: bool, down: bool)
    requires Pair(x, y, k, up, down) && k >= 1 && y.pc == Down(k) && y.sense == IsOdd(y.done + 1)
    ensures Pair(x, y.(pc := Down(k - 1)), k, up, y.sense)
  {
  }

  /** The loser sees it. */
  lemma Wakes(x: Thread, y: Thread, k: nat, up: bool, down: bool)
    requires Pair(x, y, k, up, down) && k >= 1 && x.pc == Wait(k) && x.sense == IsOdd(x.done + 1) && down == x.sense
    ensures Pair(x.(pc := Down(k - 1)), y, k, up, down)
  {
  }

  // ---- The invariant ---------------------------------------------------------------------------------------------

  ghost predicate PairOk(B: Bracket, s: State, i: nat) {
    && i < |s.threads| && B.foe(i) < |s.threads|
    && Pair(s.threads[i], s.threads[B.foe(i)], B.lose(i), Flag(s, B.foe(i), B.lose(i)), Flag(s, i, B.lose(i)))
  }

  ghost predicate Inv(B: Bracket, n: nat, top: nat, s: State) {
    && |s.threads| == n == |s.flags| && (forall i :: 0 <= i < n ==> |s.flags[i]| == top + 1)
    && (forall t: nat {:trigger s.threads[t]} :: t < n ==> PcOk(B.lose(t), top, s.threads[t]))
    && (forall i: nat {:trigger PairOk(B, s, i)} :: 0 < i < n ==> PairOk(B, s, i))
  }

  /** Thread t moves to x; the pairs it belongs to are as they should be. */
  lemma Moves(B: Bracket, n: nat, top: nat, s: State, t: nat, x: Thread)
    requires Proper(B, n, top) && Inv(B, n, top, s) && t < n && PcOk(B.lose(t), top, x)
    requires forall i: nat {:trigger PairOk(B, s.(threads := s.threads[t := x]), i)} ::
               0 < i < n && (i == t || B.foe(i) == t) ==> PairOk(B, s.(threads := s.threads[t := x]), i)
    ensures Inv(B, n, top, s.(threads := s.threads[t := x]))
  {
    var s' := s.(threads := s.threads[t := x]);
    forall i: nat {:trigger PairOk(B, s', i)} | 0 < i < n ensures PairOk(B, s', i) {
      if i != t && B.foe(i) != t {
        assert PairOk(B, s, i);
      }
    }
  }

  lemma MovesAlike(B: Bracket, n: nat, top: nat, s: State, t: nat, x: Thread)
    requires Proper(B, n, top) && Inv(B, n, top, s) && t < n && PcOk(B.lose(t), top, x)
    requires forall k: nat {:trigger Alike(s.threads[t], x, k)} :: 1 <= k <= top ==> Alike(s.threads[t], x, k)
    ensures Inv(B, n, top, s.(threads := s.threads[t := x]))
  {
    var s' := s.(threads := s.threads[t := x]);
    forall i: nat {:trigger PairOk(B, s', i)} | 0 < i < n && (i == t || B.foe(i) == t) ensures PairOk(B, s', i) {
      assert PairOk(B, s, i);
      assert Alike(s.threads[t], x, B.lose(i));
    }
    Moves(B, n, top, s, t, x);
  }

  /** Thread t goes on from round r: nobody to wait for, or the flag was seen. */
  lemma GoesOn(B: Bracket, n: nat, top: nat, s: State, t: nat, pc: PC)
    requires Proper(B, n, top) && Inv(B, n, top, s) && t < n && s.threads[t].pc.Up?
    requires var r := s.threads[t].pc.r;
             && r < B.lose(t) && PcOk(B.lose(t), top, s.threads[t].(pc := pc))
             && (pc == Up(r + 1) || (pc == Down(r) && r == top))
             && ((forall i: nat :: !Beats(B, n, t, i, r)) || Flag(s, t, r) == s.threads[t].sense)
    ensures Inv(B, n, top, SetPC(s, t, pc))
  {
    var x := s.threads[t];
    var r, s' := x.pc.r, SetPC(s, t, pc);
    forall i: nat {:trigger PairOk(B, s', i)} | 0 < i < n && (i == t || B.foe(i) == t) ensures PairOk(B, s', i) {
      assert PairOk(B, s, i);
      if i != t && B.lose(i) == r {
        assert Beats(B, n, t, i, r);
        Sees(s.threads[i], x, r, Flag(s, t, r), Flag(s, i, r), pc);
      } else {
        assert Alike(x, s'.threads[t], B.lose(i));
      }
    }
    Moves(B, n, top, s, t, x.(pc := pc));
  }

  /** The flags that thread t sets in round r belong to the pair (i, j) only. */
  lemma StoreMoves(B: Bracket, n: nat, top: nat, s: State, t: nat, x: Thread, i: nat, f: nat, v: bool)
    requires Proper(B, n, top) && Inv(B, n, top, s) && t < n && PcOk(B.lose(t), top, x)
    requires 0 < i < n && (f == i || f == B.foe(i)) && (t == i || t == B.foe(i)) && f != t
    requires forall q: nat {:trigger Alike(s.threads[t], x, B.lose(q))} ::
               0 < q < n && q != i && (q == t || B.foe(q) == t) ==> Alike(s.threads[t], x, B.lose(q))
    requires PairOk(B, SetFlag(s.(threads := s.threads[t := x]), f, B.lose(i), v), i)
    ensures Inv(B, n, top, SetFlag(s.(threads := s.threads[t := x]), f, B.lose(i), v))
  {
    var s' := SetFlag(s.(threads := s.threads[t := x]), f, B.lose(i), v);
    forall q: nat {:trigger PairOk(B, s', q)} | 0 < q < n ensures PairOk(B, s', q) {
      if q != i {
        assert PairOk(B, s, q);
        if B.lose(i) == B.lose(q) { OwnFlags(B, n, top, i, q); }
        assert Flag(s', q, B.lose(q)) == Flag(s, q, B.lose(q));
        assert Flag(s', B.foe(q), B.lose(q)) == Flag(s, B.foe(q), B.lose(q));
        assert q == t || B.foe(q) == t ==> Alike(s.threads[t], x, B.lose(q));
      }
    }
  }

  /** Two pairs of the same round share no thread. */
  lemma OwnFlags(B: Bracket, n: nat, top: nat, i: nat, q: nat)
    requires Proper(B, n, top) && 0 < i < n && 0 < q < n && i != q && B.lose(i) == B.lose(q)
    ensures B.foe(i) != B.foe(q) && B.foe(i) != q && B.foe(q) != i
  {
    assert B.beats(B.foe(i), B.lose(i)) == i && B.beats(B.foe(q), B.lose(q)) == q;
  }

  // ---- Steps preserve it ------------------------------------------------------------------------------------------

  lemma UpInv(B: Bracket, T: Table, n: nat, top: nat, s: State, t: nat)
    requires Follows(B, T, n, top) && Inv(B, n, top, s) && t < n && s.threads[t].pc.Up?
    ensures Inv(B, n, top, Step(T, s, t))
  {
    var x := s.threads[t];
    var r := x.pc.r;
    assert RoleFits(B, T, n, top, t, r);
    match T.role(t, r)
    case Loser => LoserArrives(B, T, n, top, s, t);
    case Champion => if Flag(s, t, r) == x.sense { GoesOn(B, n, top, s, t, Down(r)); }
    case Winner => if Flag(s, t, r) == x.sense { GoesOn(B, n, top, s, t, Up(r + 1)); }
    case Bye => GoesOn(B, n, top, s, t, Up(r + 1));
  }

  lemma LoserArrives(B: Bracket, T: Table, n: nat, top: nat, s: State, t: nat)
    requires Follows(B, T, n, top) && Inv(B, n, top, s) && t < n && s.threads[t].pc.Up?
    requires t > 0 && s.threads[t].pc.r == B.lose(t) && T.role(t, s.threads[t].pc.r) == Loser
    requires T.opponent(t, s.threads[t].pc.r) == B.foe(t)
    ensures Inv(B, n, top, Step(T, s, t))
  {
    var x := s.threads[t];
    var r, f, x' := x.pc.r, B.foe(t), x.(pc := Wait(x.pc.r));
    var s' := SetFlag(s.(threads := s.threads[t := x']), f, r, x.sense);
    assert Step(T, s, t) == s';
    assert PairOk(B, s, t);
    Arrives(x, s.threads[f], r, Flag(s, f, r), Flag(s, t, r));
    assert PairOk(B, s', t);
    StoreMoves(B, n, top, s, t, x', t, f, x.sense);
  }

  lemma WaitInv(B: Bracket, T: Table, n: nat, top: nat, s: State, t: nat)
    requires Proper(B, n, top) && Inv(B, n, top, s) && t < n && s.threads[t].pc.Wait?
    ensures Inv(B, n, top, Step(T, s, t))
  {
    var x := s.threads[t];
    if Flag(s, t, x.pc.r) == x.sense {
      WokenPairs(B, n, top, s, t);
      Moves(B, n, top, s, t, x.(pc := Down(x.pc.r - 1)));
    }
  }

  /** A thread that is woken up keeps step with its winner and with those it beat. */
  lemma WokenPairs(B: Bracket, n: nat, top: nat, s: State, t: nat)
    requires Proper(B, n, top) && Inv(B, n, top, s) && t < n && s.threads[t].pc.Wait?
    requires Flag(s, t, s.threads[t].pc.r) == s.threads[t].sense
    ensures s.threads[t].pc.r >= 1 && PcOk(B.lose(t), top, s.threads[t].(pc := Down(s.threads[t].pc.r - 1)))
    ensures var s' := s.(threads := s.threads[t := s.threads[t].(pc := Down(s.threads[t].pc.r - 1))]);
            forall i: nat {:trigger PairOk(B, s', i)} :: 0 < i < n && (i == t || B.foe(i) == t) ==> PairOk(B, s', i)
  {
    var x := s.threads[t];
    assert PcOk(B.lose(t), top, x);
    var r, x' := x.pc.r, x.(pc := Down(x.pc.r - 1));
    var s' := s.(threads := s.threads[t := x']);
    forall i: nat {:trigger PairOk(B, s', i)} | 0 < i < n && (i == t || B.foe(i) == t) ensures PairOk(B, s', i) {
      assert PairOk(B, s, i);
      if i == t {
        Wakes(x, s.threads[B.foe(t)], r, Flag(s, B.foe(t), r), Flag(s, t, r));
      } else {
        assert Alike(x, x', B.lose(i));
      }
    }
  }

  lemma DownAlike(x: Thread, r: nat, k: nat)
    requires r >= 1 && x.pc == Down(r) && k != r
    ensures Alike(x, x.(pc := Down(r - 1)), k)
  {
  }

  /** Thread t meets its other opponents in other rounds. */
  lemma OtherRound(B: Bracket, n: nat, top: nat, t: nat, i: nat, q: nat)
    requires Proper(B, n, top) && 0 < i < n && 0 < q < n && B.foe(i) == t && q != i && (q == t || B.foe(q) == t)
    ensures B.lose(q) != B.lose(i)
  {
    assert B.beats(B.foe(i), B.lose(i)) == i && B.beats(B.foe(q), B.lose(q)) == q;
  }

  lemma WinnerReleases(B: Bracket, n: nat, top: nat, s: State, t: nat, i: nat)
    requires Proper(B, n, top) && Inv(B, n, top, s) && t < n && s.threads[t].pc.Down? && s.threads[t].pc.r >= 1
    requires Beats(B, n, t, i, s.threads[t].pc.r)
    ensures Inv(B, n, top, SetPC(SetFlag(s, i, s.threads[t].pc.r, s.threads[t].sense), t, Down(s.threads[t].pc.r - 1)))
  {
    var x := s.threads[t];
    var r, x' := x.pc.r, x.(pc := Down(x.pc.r - 1));
    var s' := SetFlag(s.(threads := s.threads[t := x']), i, r, x.sense);
    assert SetPC(SetFlag(s, i, r, x.sense), t, Down(r - 1)) == s';
    ReleasedPair(B, n, top, s, t, i);
    ReleasedOthers(B, n, top, t, i, x);
    StoreMoves(B, n, top, s, t, x', i, i, x.sense);
  }

  lemma ReleasedOthers(B: Bracket, n: nat, top: nat, t: nat, i: nat, x: Thread)
    requires Proper(B, n, top) && x.pc.Down? && x.pc.r >= 1 && Beats(B, n, t, i, x.pc.r)
    ensures forall q: nat {:trigger Alike(x, x.(pc := Down(x.pc.r - 1)), B.lose(q))} ::
              0 < q < n && q != i && (q == t || B.foe(q) == t) ==> Alike(x, x.(pc := Down(x.pc.r - 1)), B.lose(q))
  {
    forall q: nat | 0 < q < n && q != i && (q == t || B.foe(q) == t)
      ensures Alike(x, x.(pc := Down(x.pc.r - 1)), B.lose(q))
    {
      OtherRound(B, n, top, t, i, q);
      DownAlike(x, x.pc.r, B.lose(q));
    }
  }

  lemma ReleasedPair(B: Bracket, n: nat, top: nat, s: State, t: nat, i: nat)
    requires Proper(B, n, top) && Inv(B, n, top, s) && t < n && s.threads[t].pc.Down? && s.threads[t].pc.r >= 1
    requires Beats(B, n, t, i, s.threads[t].pc.r)
    ensures var x := s.threads[t];
            PairOk(B, SetFlag(s.(threads := s.threads[t := x.(pc := Down(x.pc.r - 1))]), i, x.pc.r, x.sense), i)
  {
    var x := s.threads[t];
    assert PairOk(B, s, i);
    Releases(s.threads[i], x, x.pc.r, Flag(s, t, x.pc.r), Flag(s, i, x.pc.r));
  }

  lemma LeaveInv(B: Bracket, n: nat, top: nat, s: State, t: nat)
    requires Proper(B, n, top) && Inv(B, n, top, s) && t < n && s.threads[t].pc == Down(0)
    ensures var x := s.threads[t];
            Inv(B, n, top, s.(threads := s.threads[t := Thread(!x.sense, Outside, x.done + 1)]))
  {
    var x := s.threads[t];
    assert PcOk(B.lose(t), top, x);
    MovesAlike(B, n, top, s, t, Thread(!x.sense, Outside, x.done + 1));
  }

  /** On the way down a thread has the role of a winner exactly if it beat somebody in that round. */
  lemma RoleDown(B: Bracket, T: Table, n: nat, top: nat, t: nat, r: nat)
    requires Follows(B, T, n, top) && t < n && 1 <= r <= top && r < B.lose(t)
    ensures if T.role(t, r) == Winner || T.role(t, r) == Champion then Beats(B, n, t, T.opponent(t, r), r)
            else forall i: nat :: !Beats(B, n, t, i, r)
  {
    assert RoleFits(B, T, n, top, t, r);
  }

  lemma DownPc(B: Bracket, n: nat, top: nat, s: State, t: nat)
    requires Proper(B, n, top) && Inv(B, n, top, s) && t < n && s.threads[t].pc.Down?
    ensures s.threads[t].pc.r < B.lose(t) && s.threads[t].pc.r <= top
  {
    assert PcOk(B.lose(t), top, s.threads[t]);
  }

  lemma DownInv(B: Bracket, T: Table, n: nat, top: nat, s: State, t: nat)
    requires Follows(B, T, n, top) && Inv(B, n, top, s) && t < n && s.threads[t].pc.Down?
    ensures Inv(B, n, top, Step(T, s, t))
  {
    var r := s.threads[t].pc.r;
    DownPc(B, n, top, s, t);
    if r == 0 {
      LeaveInv(B, n, top, s, t);
    } else {
      RoleDown(B, T, n, top, t, r);
      if T.role(t, r) == Winner || T.role(t, r) == Champion {
        WinnerReleases(B, n, top, s, t, T.opponent(t, r));
      } else {
        SitsOut(B, n, top, s, t);
      }
    }
  }

  lemma SitsOut(B: Bracket, n: nat, top: nat, s: State, t: nat)
    requires Proper(B, n, top) && Inv(B, n, top, s) && t < n && s.threads[t].pc.Down? && s.threads[t].pc.r >= 1
    requires forall i: nat :: !Beats(B, n, t, i, s.threads[t].pc.r)
    ensures Inv(B, n, top, SetPC(s, t, Down(s.threads[t].pc.r - 1)))
  {
    var x := s.threads[t];
    var r, x' := x.pc.r, x.(pc := Down(x.pc.r - 1));
    var s' := s.(threads := s.threads[t := x']);
    forall i: nat {:trigger PairOk(B, s', i)} | 0 < i < n && (i == t || B.foe(i) == t) ensures PairOk(B, s', i) {
      assert PairOk(B, s, i);
      assert i != t ==> !Beats(B, n, t, i, r);
      assert Alike(x, x', B.lose(i));
    }
    Moves(B, n, top, s, t, x');
  }

  lemma StepInv(B: Bracket, T: Table, n: nat, top: nat, s: State, t: nat)
    requires Follows(B, T, n, top) && Inv(B, n, top, s)
    ensures Inv(B, n, top, Step(T, s, t))
  {
    if t < n {
      match s.threads[t].pc
      case Outside => MovesAlike(B, n, top, s, t, s.threads[t].(pc := Up(1)));
      case Up(_) => UpInv(B, T, n, top, s, t);
      case Wait(_) => WaitInv(B, T, n, top, s, t);
      case Down(_) => DownInv(B, T, n, top, s, t);
    }
  }

  lemma {:induction false} RunInv(B: Bracket, T: Table, n: nat, top: nat, ts: seq<nat>)
    requires Follows(B, T, n, top)
    ensures Inv(B, n, top, Run(T, n, top + 1, ts))
  {
    if ts == [] {
      var s := Init(n, top + 1);
      forall i: nat | 0 < i < n ensures PairOk(B, s, i) { assert B.foe(i) < i; }
    } else {
      RunInv(B, T, n, top, ts[..|ts| - 1]);
      StepInv(B, T, n, top, Run(T, n, top + 1, ts[..|ts| - 1]), ts[|ts| - 1]);
    }
  }

  // ---- What every run guarantees ----------------------------------------------------------------------------------

  /** A thread that is through with round k speaks for every thread that loses to it by then, and for all
      that lose to those. */
  lemma {:induction false} SpeaksFor(B: Bracket, n: nat, top: nat, s: State, i: nat, e: nat)
    requires Proper(B, n, top) && Inv(B, n, top, s) && i < n && e <= Through(s.threads[0], top)
    ensures e <= Entered(s.threads[i]) && (i > 0 ==> e <= Through(s.threads[i], B.lose(i)))
    decreases i
  {
    if i > 0 {
      SpeaksFor(B, n, top, s, B.foe(i), e);
      assert PairOk(B, s, i);
      ThroughLess(s.threads[B.foe(i)], B.lose(i), if B.foe(i) == 0 then top else B.lose(B.foe(i)));
    }
  }

  lemma ThroughLess(x: Thread, k: nat, m: nat)
    requires k <= m
    ensures Through(x, m) <= Through(x, k)
  {
  }

  /** The wakeup comes from the champion. */
  lemma {:induction false} WokenByChampion(B: Bracket, n: nat, top: nat, s: State, i: nat)
    requires Proper(B, n, top) && Inv(B, n, top, s) && i < n
    ensures Woken(s.threads[i]) <= Woken(s.threads[0])
    decreases i
  {
    if i > 0 {
      assert PairOk(B, s, i);
      WokenByChampion(B, n, top, s, B.foe(i));
    }
  }

  /** No thread has returned from, or been woken up in, an episode that some thread has not entered. */
  ghost predicate Together(s: State) {
    forall t, u :: 0 <= t < |s.threads| && 0 <= u < |s.threads| ==>
      s.threads[t].done <= Woken(s.threads[t]) <= Entered(s.threads[u])
  }

  /** In every run, for any number of threads and any number of episodes. */
  lemma NobodyLeavesEarly(n: nat, size: nat, ts: seq<nat>)
    requires size >= 1 && LeastRounds(n, size - 1)
    ensures |Run(TableOf(n, size), n, size, ts).threads| == n && Together(Run(TableOf(n, size), n, size, ts))
  {
    if size == 1 {
      SingleRun(TableOf(n, size), n, ts);
    } else {
      RunTable(n, size - 1, size, ts);
      TogetherInBracket(BracketOf(size - 1), n, size - 1, Run(TableOf(n, size), n, size, ts));
    }
  }

  /** The invariant holds in every run with the tables the initializer fills. */
  lemma RunTable(n: nat, top: nat, size: nat, ts: seq<nat>)
    requires Covers(n, top) && size == top + 1
    ensures Follows(BracketOf(top), TableOf(n, size), n, top)
    ensures Inv(BracketOf(top), n, top, Run(TableOf(n, size), n, size, ts))
  {
    TableFollows(n, top, size);
    RunInv(BracketOf(top), TableOf(n, size), n, top, ts);
  }

  /** A single thread returns at once. */
  lemma {:induction false} SingleRun(T: Table, n: nat, ts: seq<nat>)
    requires T.single
    ensures var s := Run(T, n, 1, ts); |s.threads| == n && forall t :: 0 <= t < n ==> s.threads[t].pc == Outside
  {
    if ts != [] { SingleRun(T, n, ts[..|ts| - 1]); }
  }

  /** With the size the code computes from the number of threads, no schedule lets a thread leave early if
      and only if there are at most 2^31 threads. */
  lemma SizeExact(nthr: bv32)
    requires nthr >= 1
    ensures var n, size := Value(nthr), SizeOf(nthr);
            (forall ts :: Together(Run(TableOf(n, size), n, size, ts))) <==> nthr <= 0x8000_0000
  {
    var n, size := Value(nthr), SizeOf(nthr);
    RoundsCover(nthr);
    if nthr <= 0x8000_0000 {
      forall ts ensures Together(Run(TableOf(n, size), n, size, ts)) { NobodyLeavesEarly(n, size, ts); }
    } else {
      AboveOne(nthr);
      NoRounds(n);
    }
  }

  /** Several threads with the tables of one: the first returns at once. */
  lemma NoRounds(n: nat)
    requires n >= 2
    ensures !Together(Run(TableOf(n, 1), n, 1, [0]))
  {
    var s := Run(TableOf(n, 1), n, 1, [0]);
    assert [0][..0] == [];
    assert Run(TableOf(n, 1), n, 1, [0][..0]) == Init(n, 1);
    assert s == Step(TableOf(n, 1), Init(n, 1), 0);
    assert s.threads[0].done == 1 && Entered(s.threads[1]) == 0;
  }

  // ---- Progress ---------------------------------------------------------------------------------------------------

  /** A thread on its way up can move, or one of those it waits for can. */
  lemma {:induction false} Mover(B: Bracket, T: Table, n: nat, top: nat, s: State, t: nat, r: nat) returns (u: nat)
    requires Follows(B, T, n, top) && Inv(B, n, top, s) && t < n && s.threads[t].pc == Up(r)
    ensures u < n && Step(T, s, u) != s
    decreases r
  {
    assert RoleFits(B, T, n, top, t, r);
    u := t;
    if (T.role(t, r) == Winner || T.role(t, r) == Champion) && Flag(s, t, r) != s.threads[t].sense {
      u := T.opponent(t, r);
      assert PairOk(B, s, u);
      if s.threads[u].pc.Up? && s.threads[u].pc.r < r { u := Mover(B, T, n, top, s, u, s.threads[u].pc.r); }
    }
  }

  /** The first thread never waits to be released. */
  lemma FirstMoves(B: Bracket, T: Table, n: nat, top: nat, s: State) returns (t: nat)
    requires Follows(B, T, n, top) && Inv(B, n, top, s)
    ensures t < n && Step(T, s, t) != s
  {
    t := 0;
    assert PcOk(B.lose(0), top, s.threads[0]);
    if s.threads[0].pc.Up? {
      t := Mover(B, T, n, top, s, 0, s.threads[0].pc.r);
    } else {
      assert Step(T, s, 0).threads[0].pc != s.threads[0].pc;
    }
  }

  /** The barrier cannot deadlock: in every reachable state some thread can move. */
  lemma SomebodyMoves(n: nat, size: nat, ts: seq<nat>) returns (t: nat)
    requires n >= 1 && size >= 1 && LeastRounds(n, size - 1)
    ensures var s := Run(TableOf(n, size), n, size, ts); t < n && Step(TableOf(n, size), s, t) != s
  {
    var s := Run(TableOf(n, size), n, size, ts);
    if size == 1 {
      t := 0;
      SingleRun(TableOf(n, size), n, ts);
      SingleMoves(TableOf(n, size), s);
    } else {
      RunTable(n, size - 1, size, ts);
      t := FirstMoves(BracketOf(size - 1), TableOf(n, size), n, size - 1, s);
    }
  }

  lemma SingleMoves(T: Table, s: State)
    requires T.single && |s.threads| >= 1 && s.threads[0].pc == Outside
    ensures Step(T, s, 0) != s
  {
    assert Step(T, s, 0).threads[0].done != s.threads[0].done;
  }

  lemma TogetherInBracket(B: Bracket, n: nat, top: nat, s: State)
    requires Proper(B, n, top) && Inv(B, n, top, s)
    ensures Together(s)
  {
    forall t, u | 0 <= t < n && 0 <= u < n ensures s.threads[t].done <= Woken(s.threads[t]) <= Entered(s.threads[u]) {
      EarlyInBracket(B, n, top, s, t, u);
    }
  }

  lemma EarlyInBracket(B: Bracket, n: nat, top: nat, s: State, t: nat, u: nat)
    requires Proper(B, n, top) && Inv(B, n, top, s) && t < n && u < n
    ensures s.threads[t].done <= Woken(s.threads[t]) <= Entered(s.threads[u])
  {
    WokenByChampion(B, n, top, s, t);
    SpeaksFor(B, n, top, s, u, Woken(s.threads[0]));
  }
}

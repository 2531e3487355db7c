/**
 * The round-robin order on two concrete replays: the documented one, where
 * two input engines alternate, and one where an input engine exits first and
 * the turn skips it from then on.
 */
module RoundExamples {
  import opened Actions
  import opened Rounds

  /** Two input engines A and B, each yielding R, L and then Exit, are processed as A.R, B.R, A.L, B.L. */
  lemma AlternatingEngines()
    ensures var a := [Move(Right), Move(Left), Exit];
            var order := RoundRobinOrder([a, a]);
            |order| == 6
            && order[..4] == [Applied(0, Move(Right)), Applied(1, Move(Right)),
                              Applied(0, Move(Left)), Applied(1, Move(Left))]
            && order[4..] == [Applied(0, Exit), Applied(1, Exit)]
  {
    var a := [Move(Right), Move(Left), Exit];
    var s := [a, a];
    assert FirstExit(a[2..]) == 0;
    assert FirstExit(a[1..]) == 1;
    assert Len(a) == 3;
    assert MaxLen(s[1..]) == 3;
    assert MaxLen(s) == 3;
    assert RoundRobinFrom(s, 2, 2) == RoundRobinFrom(s, 3, 0) == [];
    assert RoundRobinFrom(s, 2, 1) == [Applied(1, Exit)];
    assert RoundRobinFrom(s, 2, 0) == [Applied(0, Exit), Applied(1, Exit)];
    assert RoundRobinFrom(s, 1, 1) == [Applied(1, Move(Left)), Applied(0, Exit), Applied(1, Exit)];
    assert RoundRobinFrom(s, 1, 0) == [Applied(0, Move(Left)), Applied(1, Move(Left)),
                                       Applied(0, Exit), Applied(1, Exit)];
    assert RoundRobinFrom(s, 0, 1) == [Applied(1, Move(Right))] + RoundRobinFrom(s, 1, 0);
  }

  /**
   * Engine 0 exits at once, engines 1 and 2 move and then exit: after engine
   * 0's Exit, the turns go to engines 1 and 2 only.
   */
  lemma EarlyExit()
    ensures var order := RoundRobinOrder([[Exit], [Move(Right), Exit], [Move(Left), Exit]]);
            order == [Applied(0, Exit), Applied(1, Move(Right)), Applied(2, Move(Left)),
                      Applied(1, Exit), Applied(2, Exit)]
  {
    var s := [[Exit], [Move(Right), Exit], [Move(Left), Exit]];
    assert Len(s[0]) == 1;
    assert FirstExit(s[1][1..]) == 0;
    assert Len(s[1]) == 2;
    assert FirstExit(s[2][1..]) == 0;
    assert Len(s[2]) == 2;
    assert MaxLen(s[2..]) == 2;
    assert MaxLen(s[1..]) == 2;
    assert MaxLen(s) == 2;
    assert RoundRobinFrom(s, 2, 0) == [];
    assert RoundRobinFrom(s, 1, 3) == [];
    assert RoundRobinFrom(s, 1, 2) == [Applied(2, Exit)];
    assert RoundRobinFrom(s, 1, 1) == [Applied(1, Exit), Applied(2, Exit)];
    assert RoundRobinFrom(s, 1, 0) == [Applied(1, Exit), Applied(2, Exit)];
    assert RoundRobinFrom(s, 0, 3) == RoundRobinFrom(s, 1, 0);
    assert RoundRobinFrom(s, 0, 2) == [Applied(2, Move(Left)), Applied(1, Exit), Applied(2, Exit)];
    assert RoundRobinFrom(s, 0, 1) == [Applied(1, Move(Right)), Applied(2, Move(Left)),
                                       Applied(1, Exit), Applied(2, Exit)];
  }
}

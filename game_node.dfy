/**
 * The search-tree node of node.py: a fog-of-war game state, the move that
 * led to it and its depth, whether it has been expanded, one child per
 * possible move, and the visit and score counters back-propagation updates.
 */
module GameNode {
  import opened Wrappers
  import opened Moves
  import opened Game
  import Position

  class Node {
    var game: FOWChess
    var depth: int
    var move: Move
    var visited: bool
    var possibleMoves: seq<Move>
    var children: seq<Node>
    var unvisited: seq<Node>
    var visits: int
    var score: int

    /** A node keeps a non-negative visit count and has children only once expanded. */
    predicate Valid()
      reads this
    {
      && visits >= 0
      && (!visited ==> possibleMoves == [] && children == [] && unvisited == [])
    }

    /** `__init__`: not expanded, no moves and no children, no visits and no score. */
    constructor(game: FOWChess, depth: int, move: Move)
      ensures Valid()
      ensures this.game == game && this.depth == depth && this.move == move
      ensures !visited && possibleMoves == [] && children == [] && unvisited == []
      ensures visits == 0 && score == 0
    {
      this.game := game;
      this.depth := depth;
      this.move := move;
      visited := false;
      possibleMoves := [];
      children := [];
      unvisited := [];
      visits := 0;
      score := 0;
    }

    /** A fresh, unexpanded node one level deeper, holding a state and the move that led to it. */
    static predicate ChildFor(c: Node, state: FOWChess, d: int, m: Move)
      reads c
    {
      && c.game == state && c.depth == d + 1 && c.move == m
      && !c.visited && c.possibleMoves == [] && c.children == [] && c.unvisited == []
      && c.visits == 0 && c.score == 0
    }

    /**
     * After expansion: one child per possible move, in order, each holding
     * the state after its move; distinct children; and an unvisited list
     * equal to the children.
     */
    predicate Expanded()
      reads this
    {
      && |children| == |possibleMoves| && unvisited == children
      && (forall i :: 0 <= i < |children| ==> FromFow(game, possibleMoves[i]).Success?)
      && (forall i, j :: 0 <= i < j < |children| ==> children[i] != children[j])
    }

    /** Each child holds the state after its move and is a fresh, unexpanded node one level deeper. */
    predicate ChildrenFor()
      reads this, children
      requires Expanded()
    {
      forall i :: 0 <= i < |children| ==>
        ChildFor(children[i], FromFow(game, possibleMoves[i]).value, depth, possibleMoves[i])
    }

    /**
     * `populate`: marks the node expanded and makes one new child per
     * possible move, in the generator's order; the unvisited list starts as
     * a copy of the children. It raises exactly when the generator does, as
     * every generated move can be applied.
     */
    method Populate() returns (r: Result<()>)
      requires Valid()
      modifies this
      ensures Valid()
      ensures visited
      ensures game == old(game) && depth == old(depth) && move == old(move)
      ensures visits == old(visits) && score == old(score)
      ensures r.Failure? <==> PossibleMoves(game).Failure?
      ensures r.Failure? ==> r.error == PossibleMoves(game).error
      ensures r.Failure? ==>
        possibleMoves == old(possibleMoves) && children == old(children) && unvisited == old(unvisited)
      ensures r.Success? ==> PossibleMoves(game) == Success(possibleMoves)
      ensures r.Success? ==> Expanded() && ChildrenFor()
      ensures r.Success? ==> forall i :: 0 <= i < |children| ==> fresh(children[i])
    {
      visited := true;
      var generated := PossibleMoves(game);
      GeneratedAllApplicable(game, generated);
      r := Expand(generated);
    }

    /** `populate` once the generator has run: raise its error, or make the children. */
    method Expand(generated: Result<seq<Move>>) returns (r: Result<()>)
      requires Valid() && visited
      requires generated.Success? ==> forall k :: 0 <= k < |generated.value| ==> Position.Applicable(generated.value[k])
      modifies this
      ensures Valid()
      ensures visited
      ensures game == old(game) && depth == old(depth) && move == old(move)
      ensures visits == old(visits) && score == old(score)
      ensures r.Failure? <==> generated.Failure?
      ensures r.Failure? ==> r.error == generated.error
      ensures r.Failure? ==>
        possibleMoves == old(possibleMoves) && children == old(children) && unvisited == old(unvisited)
      ensures r.Success? ==> generated == Success(possibleMoves)
      ensures r.Success? ==> Expanded() && ChildrenFor()
      ensures r.Success? ==> forall i :: 0 <= i < |children| ==> fresh(children[i])
    {
      if generated.Failure? {
        return Failure(generated.error);
      }
      var states := ChildStates(game, generated.value);
      var kids := MakeChildren(states, depth, generated.value);
      possibleMoves := generated.value;
      children := kids;
      unvisited := kids;
      return Success(());
    }

    /** Every move of a successful generation can be applied. */
    static lemma GeneratedAllApplicable(g: FOWChess, generated: Result<seq<Move>>)
      requires generated == PossibleMoves(g)
      ensures generated.Success? ==> forall k :: 0 <= k < |generated.value| ==> Position.Applicable(generated.value[k])
    {
      if generated.Success? {
        forall k | 0 <= k < |generated.value|
          ensures Position.Applicable(generated.value[k])
        {
          GeneratedApplicable(g, generated.value[k]);
        }
      }
    }

    /** The states after each move, for moves the position can all apply. */
    static function ChildStates(g: FOWChess, ms: seq<Move>): (states: seq<FOWChess>)
      requires forall k :: 0 <= k < |ms| ==> Position.Applicable(ms[k])
      ensures |states| == |ms|
      ensures forall k :: 0 <= k < |ms| ==> FromFow(g, ms[k]).Success? && states[k] == FromFow(g, ms[k]).value
    {
      seq(|ms|, k requires 0 <= k < |ms| => FromFow(g, ms[k]).value)
    }

    /** The list comprehension of `populate`: one new child per state and move, in order. */
    static method MakeChildren(states: seq<FOWChess>, d: int, ms: seq<Move>) returns (kids: seq<Node>)
      requires |states| == |ms|
      ensures |kids| == |ms|
      ensures forall k :: 0 <= k < |kids| ==> fresh(kids[k]) && ChildFor(kids[k], states[k], d, ms[k])
      ensures forall k, l :: 0 <= k < l < |kids| ==> kids[k] != kids[l]
    {
      kids := [];
      var i := 0;
      while i < |ms|
        invariant 0 <= i <= |ms| && |kids| == i
        invariant forall k :: 0 <= k < i ==> fresh(kids[k]) && ChildFor(kids[k], states[k], d, ms[k])
        invariant forall k, l :: 0 <= k < l < i ==> kids[k] != kids[l]
      {
        var child := new Node(states[i], d + 1, ms[i]);
        kids := kids + [child];
        i := i + 1;
      }
    }

    /** `update_score`: one more visit and the change added to the score; nothing else changes. */
    method UpdateScore(scoreChange: int)
      requires Valid()
      modifies this
      ensures Valid()
      ensures visits == old(visits) + 1 && score == old(score) + scoreChange
      ensures game == old(game) && depth == old(depth) && move == old(move) && visited == old(visited)
      ensures possibleMoves == old(possibleMoves) && children == old(children) && unvisited == old(unvisited)
    {
      visits := visits + 1;
      score := score + scoreChange;
    }
  }
}

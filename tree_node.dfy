/**
 * The game-independent search-tree node of MCTS/tree_node.py: a game state,
 * the move that led to it, the children once populated, the visit and score
 * counters back-propagation updates and the number of children expanded so
 * far. The player a node scores for and the expansion counter are set by the
 * game-specific subclass; here the constructor takes the player and starts
 * the counter at zero.
 */
module TreeNode {
  import opened Wrappers

  /** An outcome back-propagation carries: `'tie'` or the symbol of the winner. */
  type Outcome = string

  const Tie: Outcome := "tie"

  /** The largest loss one back-propagation can record: `1 + 9999` for an immediate loss. */
  const ImmediateLoss := 10000

  /**
   * The change `update_score` makes to the score: nothing for a tie, one
   * for a win of the node's player, and a loss of one, or of the immediate
   * penalty, otherwise (`1 + 9999 * immediate`, the flag counting as 0 or 1).
   */
  function ScoreChange(player: Outcome, outcome: Outcome, immediate: bool): (d: int)
    ensures outcome == Tie ==> d == 0
    ensures outcome != Tie && outcome == player ==> d == 1
    ensures outcome != Tie && outcome != player ==> d == if immediate then -ImmediateLoss else -1
    ensures -ImmediateLoss <= d <= 1
  {
    if outcome == Tie then 0
    else if player == outcome then 1
    else -(1 + 9999 * (if immediate then 1 else 0))
  }

  /** The children not visited yet, in order (the list `child_expansion` chooses from). */
  function Unvisited<G, M>(cs: seq<Node<G, M>>): (u: seq<Node<G, M>>)
    reads set c | c in cs
    ensures |u| <= |cs|
    ensures forall k :: 0 <= k < |u| ==> u[k] in cs && u[k].visits == 0
    ensures forall k :: 0 <= k < |cs| && cs[k].visits == 0 ==> cs[k] in u
  {
    if cs == [] then []
    else (if cs[0].visits == 0 then [cs[0]] else []) + Unvisited(cs[1..])
  }

  /** How many of the children have been visited. */
  function VisitedCount<G, M>(cs: seq<Node<G, M>>): (n: nat)
    reads set c | c in cs
    ensures n <= |cs|
  {
    if cs == [] then 0
    else (if cs[0].visits != 0 then 1 else 0) + VisitedCount(cs[1..])
  }

  /** Fewer visited children than children exactly when some child is unvisited. */
  lemma {:induction false} VisitedCountBelow<G, M>(cs: seq<Node<G, M>>)
    ensures VisitedCount(cs) < |cs| <==> exists c :: c in cs && c.visits == 0
  {
    if cs != [] {
      VisitedCountBelow(cs[1..]);
      assert forall c :: c in cs <==> c == cs[0] || c in cs[1..];
    }
  }

  /** Some visited child exactly when the visited count is positive. */
  lemma {:induction false} VisitedCountPositive<G, M>(cs: seq<Node<G, M>>)
    ensures VisitedCount(cs) > 0 <==> exists c :: c in cs && c.visits != 0
  {
    if cs != [] {
      VisitedCountPositive(cs[1..]);
      assert forall c :: c in cs <==> c == cs[0] || c in cs[1..];
    }
  }

  class Node<G, M> {
    var children: Option<seq<Node<G, M>>>
    var gameState: G
    var move: Option<M>
    var visits: int
    var score: int
    var childExpansions: int
    var player: Outcome

    /**
     * The counters stay in range: visits and expansions are never negative,
     * and each visit moved the score by at most one up or one immediate loss
     * down.
     */
    predicate Valid()
      reads this
    {
      && visits >= 0
      && childExpansions >= 0
      && -ImmediateLoss * visits <= score <= visits
    }

    /** `__init__`: no children yet (None), no visits, no score, no expansions. */
    constructor(game: G, move: Option<M>, player: Outcome)
      ensures Valid()
      ensures children.None? && gameState == game && this.move == move && this.player == player
      ensures visits == 0 && score == 0 && childExpansions == 0
    {
      children := None;
      gameState := game;
      this.move := move;
      visits := 0;
      score := 0;
      childExpansions := 0;
      this.player := player;
    }

    /** `has_unvisited_children`: more children than expansions; `len(None)` raises before population. */
    function HasUnvisitedChildren(): (r: Result<bool>)
      reads this
      ensures r.Failure? <==> children.None?
      ensures r.Failure? ==> r.error == TypeError
    {
      match children
      case None => Failure(TypeError)
      case Some(cs) => Success(|cs| > childExpansions)
    }

    /** `has_visited_children`: some child has been expanded. */
    function HasVisitedChildren(): (r: bool)
      reads this
    {
      childExpansions > 0
    }

    /**
     * While each expansion corresponds to one visited child, the two tests
     * say what their documentation promises: some child has visits 0, and
     * some child has visits other than 0.
     */
    lemma ChildrenTests()
      requires children.Some? && childExpansions == VisitedCount(children.value)
      ensures HasUnvisitedChildren().Success?
      ensures HasUnvisitedChildren().value <==> exists c :: c in children.value && c.visits == 0
      ensures HasVisitedChildren() <==> exists c :: c in children.value && c.visits != 0
    {
      VisitedCountBelow(children.value);
      VisitedCountPositive(children.value);
    }

    /**
     * `update_score`: one more visit; a tie leaves the score alone, a win of
     * the node's player adds one and any other outcome takes off one, or the
     * immediate penalty. Nothing else changes.
     */
    method UpdateScore(outcome: Outcome, immediate: bool)
      requires Valid()
      modifies this
      ensures Valid()
      ensures visits == old(visits) + 1
      ensures score == old(score) + ScoreChange(player, outcome, immediate)
      ensures children == old(children) && gameState == old(gameState) && move == old(move)
      ensures childExpansions == old(childExpansions) && player == old(player)
    {
      visits := visits + 1;
      if outcome == Tie {
        return;
      }
      if player == outcome {
        score := score + 1;
      } else {
        score := score - (1 + 9999 * (if immediate then 1 else 0));
      }
    }

    /**
     * `child_expansion`: counts one more expansion, then picks one of the
     * children with no visits, `pick` standing for the random choice among
     * them. Iterating over no children (None) raises a TypeError and
     * choosing from an empty list an IndexError, both after the count.
     */
    method ChildExpansion(pick: nat) returns (r: Result<Node<G, M>>)
      requires Valid()
      requires children.Some? && |Unvisited(children.value)| > 0 ==> pick < |Unvisited(children.value)|
      modifies this
      ensures Valid()
      ensures childExpansions == old(childExpansions) + 1
      ensures children == old(children) && gameState == old(gameState) && move == old(move)
      ensures visits == old(visits) && score == old(score) && player == old(player)
      ensures r.Failure? <==> children.None? || forall c :: c in children.value ==> c.visits != 0
      ensures r.Failure? ==> r.error == if children.None? then TypeError else IndexError
      ensures r.Success? ==> r.value in children.value && r.value.visits == 0
      ensures r.Success? ==> r.value == old(Unvisited(children.value))[pick]
    {
      // The candidates are read before the count: the count changes no visits.
      var candidates := if children.None? then [] else Unvisited(children.value);
      childExpansions := childExpansions + 1;
      if children.None? {
        return Failure(TypeError);
      }
      if |candidates| == 0 {
        return Failure(IndexError);
      }
      r := Success(candidates[pick]);
    }
  }
}

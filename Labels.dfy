/** The two score labels `updateScore` writes: the score's text, prefixed by
    "You: " on the local side, by the sanitised opponent name on the other
    side, and by "Robot: " on a robot-controlled side. `ScoreOfLabel` reads a
    score back from a label; `ScoreLabels` guarantees that it reads the true
    score whatever the names are. */
module Labels {
  import opened Common
  import opened NumberText

  /** JavaScript truthiness of `opponents[side]`: present and not the empty string. */
  predicate HasOpponent(opponents: map<Side, string>, side: Side) {
    side in opponents && opponents[side] != ""
  }

  /** The label text is either empty or ends with a space. */
  predicate EndsInSpace(s: string) {
    s == [] || s[|s| - 1] == ' '
  }

  /** The last space-free stretch at the end of `s`. */
  function LastWord(s: string): (w: string)
    ensures ' ' !in w
    ensures |w| <= |s|
  {
    if s == [] || s[|s| - 1] == ' ' then [] else LastWord(s[..|s| - 1]) + [s[|s| - 1]]
  }

  /** The score a label shows: the number after its last space. */
  function ScoreOfLabel(text: string): Option<int> {
    ParseInt(LastWord(text))
  }

  lemma {:induction false} LastWordAfter(p: string, w: string)
    requires EndsInSpace(p) && ' ' !in w
    ensures LastWord(p + w) == w
  {
    if w == [] {
      assert p + w == p;
    } else {
      var s := p + w;
      var w', c := w[..|w| - 1], w[|w| - 1];
      assert w == w' + [c];
      assert c != ' ' && ' ' !in w';
      assert s[..|s| - 1] == p + w' && s[|s| - 1] == c;
      assert LastWord(s) == LastWord(p + w') + [c];
      LastWordAfter(p, w');
    }
  }

  lemma PrefixedScoreReads(p: string, n: int)
    requires EndsInSpace(p)
    ensures ScoreOfLabel(p + Show(n)) == Some(n)
  {
    LastWordAfter(p, Show(n));
    ParseShow(n);
  }

  /** The prefixes `updateScore` puts in front of each side's score text
      for the players: "You: " on the local side, the sanitised opponent
      name on the other side when there is one. */
  function NamePrefixes(playingAs: Option<Side>, opponents: map<Side, string>,
                        sanitize: string -> string): (p: Pair<string>)
    ensures EndsInSpace(p.left) && EndsInSpace(p.right)
    ensures playingAs.Some? ==> p.Get(playingAs.value) == "You: "
    ensures playingAs.Some? && HasOpponent(opponents, playingAs.value.Other()) ==>
              p.Get(playingAs.value.Other()) == sanitize(opponents[playingAs.value.Other()]) + ": "
    ensures playingAs.None? ==> p == Pair("", "")
  {
    match playingAs
    case None => Pair("", "")
    case Some(me) =>
      var mine := Pair("", "").With(me, "You: ");
      if HasOpponent(opponents, me.Other())
      then mine.With(me.Other(), sanitize(opponents[me.Other()]) + ": ")
      else mine
  }

  /** The prefixes after `updateScore` marks a robot-controlled side with
      "Robot: ": the left side when its flag is set, else the right side. */
  function RobotPrefixes(named: Pair<string>, ai: Pair<bool>): (p: Pair<string>)
    requires EndsInSpace(named.left) && EndsInSpace(named.right)
    ensures EndsInSpace(p.left) && EndsInSpace(p.right)
    ensures ai.left ==> p == Pair("Robot: " + named.left, named.right)
    ensures !ai.left && ai.right ==> p == Pair(named.left, "Robot: " + named.right)
    ensures !ai.left && !ai.right ==> p == named
  {
    if ai.left then named.With(Left, "Robot: " + named.left)
    else if ai.right then named.With(Right, "Robot: " + named.right)
    else named
  }

  /** The left and right score labels for `score`: each side's prefixes
      followed by the text of its score. */
  function ScoreLabels(score: Pair<int>, playingAs: Option<Side>, opponents: map<Side, string>,
                       ai: Pair<bool>, sanitize: string -> string): Pair<string>
  {
    var p := RobotPrefixes(NamePrefixes(playingAs, opponents, sanitize), ai);
    Pair(p.left + Show(score.left), p.right + Show(score.right))
  }

  /** The labels before a side is assigned: no "You: " and no opponent
      name, only the bare scores, with "Robot: " in front of the left score
      when its flag is set, else in front of the right score when its flag is. */
  lemma LabelsUnassigned(score: Pair<int>, opponents: map<Side, string>,
                         ai: Pair<bool>, sanitize: string -> string)
    ensures var r := ScoreLabels(score, None, opponents, ai, sanitize);
      && r.left == (if ai.left then "Robot: " else "") + Show(score.left)
      && r.right == (if ai.right && !ai.left then "Robot: " else "") + Show(score.right)
  {
  }

  /** `updateScore` puts "Robot: " in front of side `s`: the left side when
      its robot flag is set, the right side when only its flag is set. */
  predicate RobotMarked(ai: Pair<bool>, s: Side) {
    if s == Left then ai.left else ai.right && !ai.left
  }

  /** The whole label of each side once the local side `me` is assigned: the
      local side reads "You: " and its score, the other side its sanitised
      opponent name (when there is one) and its score, and the robot's side
      has "Robot: " in front. */
  lemma LabelsExact(score: Pair<int>, me: Side, opponents: map<Side, string>,
                    ai: Pair<bool>, sanitize: string -> string)
    ensures var r := ScoreLabels(score, Some(me), opponents, ai, sanitize);
            var other := me.Other();
      && (!RobotMarked(ai, me) ==> r.Get(me) == "You: " + Show(score.Get(me)))
      && (RobotMarked(ai, me) ==> r.Get(me) == "Robot: " + "You: " + Show(score.Get(me)))
      && (!HasOpponent(opponents, other) && !RobotMarked(ai, other) ==>
            r.Get(other) == Show(score.Get(other)))
      && (!HasOpponent(opponents, other) && RobotMarked(ai, other) ==>
            r.Get(other) == "Robot: " + Show(score.Get(other)))
      && (HasOpponent(opponents, other) && !RobotMarked(ai, other) ==>
            r.Get(other) == sanitize(opponents[other]) + ": " + Show(score.Get(other)))
      && (HasOpponent(opponents, other) && RobotMarked(ai, other) ==>
            r.Get(other) == "Robot: " + sanitize(opponents[other]) + ": " + Show(score.Get(other)))
  {
    var named := NamePrefixes(Some(me), opponents, sanitize);
    var p := RobotPrefixes(named, ai);
    var other := me.Other();
    assert p.Get(me) == if RobotMarked(ai, me) then "Robot: " + named.Get(me) else named.Get(me);
    assert p.Get(other) == if RobotMarked(ai, other) then "Robot: " + named.Get(other) else named.Get(other);
    var t := Show(score.Get(other));
    assert "" + t == t;
    if HasOpponent(opponents, other) {
      var n := sanitize(opponents[other]);
      assert ("Robot: " + (n + ": ")) + t == "Robot: " + n + ": " + t;
    } else {
      assert ("Robot: " + "") + t == "Robot: " + t;
    }
    assert ("Robot: " + "You: ") + Show(score.Get(me)) == "Robot: " + "You: " + Show(score.Get(me));
  }

  /** Whatever the names and flags, each label reads back as its side's score. */
  lemma LabelsShowScores(score: Pair<int>, playingAs: Option<Side>, opponents: map<Side, string>,
                         ai: Pair<bool>, sanitize: string -> string)
    ensures var r := ScoreLabels(score, playingAs, opponents, ai, sanitize);
            ScoreOfLabel(r.left) == Some(score.left) && ScoreOfLabel(r.right) == Some(score.right)
  {
    var p := RobotPrefixes(NamePrefixes(playingAs, opponents, sanitize), ai);
    PrefixedScoreReads(p.left, score.left);
    PrefixedScoreReads(p.right, score.right);
  }
}

/**
 * A challenge of a topic with its progress record, and ChallengeManager,
 * which keeps the challenges of each topic for the current session.
 */
module Challenges {
  import opened Wrappers
  import opened Containers

  /** A challenge's fields as a value; the container list is created on first use. */
  datatype ChallengeData = ChallengeData(
    title: string, description: string, completed: bool, bestScore: int, attempts: int,
    containerlist: Option<seq<Container>>)

  /** A topic: its title and, once set, its challenges. */
  datatype Topic = Topic(title: string, challenges: Option<seq<ChallengeData>>)

  /** getProgressPercentage: all or nothing. */
  function ProgressPercentage(completed: bool): (r: int)
    ensures r == 100 <==> completed
    ensures r == 0 <==> !completed
  {
    if !completed then 0 else 100
  }

  class Challenge {
    var title: string
    var description: string
    var completed: bool
    var bestScore: int
    var attempts: int
    var containerlist: Option<seq<Container>>

    function Value(): ChallengeData
      reads this
    {
      ChallengeData(title, description, completed, bestScore, attempts, containerlist)
    }

    constructor (title: string, description: string)
      ensures Value() == ChallengeData(title, description, false, 0, 0, None)
    {
      this.title := title;
      this.description := description;
      completed := false;
      bestScore := 0;
      attempts := 0;
      containerlist := None;
    }

    method SetTitle(t: string)
      modifies this
      ensures Value() == old(Value()).(title := t)
    {
      title := t;
    }

    method SetDescription(d: string)
      modifies this
      ensures Value() == old(Value()).(description := d)
    {
      description := d;
    }

    method SetCompleted(c: bool)
      modifies this
      ensures Value() == old(Value()).(completed := c)
    {
      completed := c;
    }

    /** Keeps the better of the stored and the new score, so the best score never goes down. */
    method SetBestScore(score: int)
      modifies this
      ensures bestScore >= old(bestScore) && bestScore >= score
      ensures bestScore == old(bestScore) || bestScore == score
      ensures Value() == old(Value()).(bestScore := bestScore)
    {
      if score > bestScore {
        bestScore := score;
      }
    }

    method IncrementAttempts()
      modifies this
      ensures Value() == old(Value()).(attempts := old(attempts) + 1)
    {
      attempts := attempts + 1;
    }

    method SetAttempts(n: int)
      modifies this
      ensures Value() == old(Value()).(attempts := n)
    {
      attempts := n;
    }

    /** getContainerlist: creates the empty list on first use and returns the same list afterwards. */
    method GetContainerlist() returns (r: seq<Container>)
      modifies this
      ensures old(containerlist).Some? ==> r == old(containerlist).value
      ensures old(containerlist).None? ==> r == []
      ensures Value() == old(Value()).(containerlist := Some(r))
    {
      if containerlist.None? {
        containerlist := Some([]);
      }
      r := containerlist.value;
    }

    method SetContainerlist(list: Option<seq<Container>>)
      modifies this
      ensures Value() == old(Value()).(containerlist := list)
    {
      containerlist := list;
    }

    /** Appends a container to the list, creating the list first if needed. */
    method AddContainer(c: Container)
      modifies this
      ensures Value() == old(Value()).(containerlist := Some(
        (if old(containerlist).Some? then old(containerlist).value else []) + [c]))
    {
      var list := GetContainerlist();
      containerlist := Some(list + [c]);
    }
  }

  /** The challenges of each topic, by topic name, for the current session. */
  class ChallengeManager {
    var challengesByTopic: map<string, seq<Challenge>>

    constructor ()
      ensures challengesByTopic == map[]
    {
      challengesByTopic := map[];
    }

    /** Replaces the list of one topic; the other topics keep theirs. */
    method SetChallengesForTopic(topic: string, challenges: seq<Challenge>)
      modifies this
      ensures challengesByTopic == old(challengesByTopic)[topic := challenges]
      ensures forall t :: t != topic && t in old(challengesByTopic) ==> t in challengesByTopic && challengesByTopic[t] == old(challengesByTopic)[t]
    {
      challengesByTopic := challengesByTopic[topic := challenges];
    }

    /** getChallengesForTopic: null (None) for a topic that was never set. */
    function GetChallengesForTopic(topic: string): (r: Option<seq<Challenge>>)
      reads this
      ensures r.Some? <==> topic in challengesByTopic
      ensures r.Some? ==> r.value == challengesByTopic[topic]
    {
      if topic in challengesByTopic then Some(challengesByTopic[topic]) else None
    }

    /** getChallenge: the challenge at `position` of the topic, or null when there is none. */
    function GetChallenge(topic: string, position: int): (r: Challenge?)
      reads this
      ensures r != null <==> topic in challengesByTopic && 0 <= position < |challengesByTopic[topic]|
      ensures r != null ==> r == challengesByTopic[topic][position]
    {
      var challenges := GetChallengesForTopic(topic);
      if challenges.Some? && 0 <= position < |challenges.value| then challenges.value[position] else null
    }

    /**
     * updateChallengeCompletion: marks the addressed challenge completed and
     * offers it the score; when no challenge is addressed nothing changes.
     */
    method UpdateChallengeCompletion(topic: string, position: int, score: int)
      modifies if GetChallenge(topic, position) == null then {} else {GetChallenge(topic, position)}
      ensures var c := GetChallenge(topic, position);
        c != null ==> c.Value() == old(c.Value()).(completed := true, bestScore := if score > old(c.bestScore) then score else old(c.bestScore))
    {
      var c := GetChallenge(topic, position);
      if c != null {
        c.SetCompleted(true);
        c.SetBestScore(score);
      }
    }
  }
}

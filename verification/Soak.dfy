/** The long-run stability monitor (src/wecom_ai_gateway/soak.py). */
module Soak {
  datatype Id = Id(name: string)

  /** One snapshot: the monotonic time it was taken at, and each monitored instance's status. */
  datatype Sample = Sample(now: real, states: map<Id, string>)

  const ONLINE := "online"

  /** Present and not online. */
  predicate Unhealthy(s: Sample, id: Id) {
    id in s.states && s.states[id] != ONLINE
  }

  function Updated(previous: map<Id, real>, s: Sample): map<Id, real> {
    map id | id in s.states && s.states[id] != ONLINE :: if id in previous then previous[id] else s.now
  }

  function Sustained(since: map<Id, real>, now: real, grace: real): set<Id> {
    set id | id in since && now - since[id] >= grace
  }

  method UpdateUnhealthySince(previous: map<Id, real>, s: Sample) returns (result: map<Id, real>)
    ensures result == Updated(previous, s)
  {
    result := map[];
    var todo := s.states.Keys;
    while todo != {}
      invariant todo <= s.states.Keys
      invariant result == map id | id in Updated(previous, s) && id !in todo :: Updated(previous, s)[id]
      decreases todo
    {
      var id :| id in todo;
      if s.states[id] != ONLINE {
        result := result[id := if id in previous then previous[id] else s.now];
      }
      todo := todo - {id};
    }
  }

  /** The bookkeeping after a run of samples. */
  function Since(samples: seq<Sample>): map<Id, real> {
    if samples == [] then map[]
    else Updated(Since(samples[..|samples| - 1]), samples[|samples| - 1])
  }

  function Violations(samples: seq<Sample>, grace: real): set<Id> {
    if samples == [] then {}
    else
      Violations(samples[..|samples| - 1], grace)
      + Sustained(Since(samples), samples[|samples| - 1].now, grace)
  }

  /** run_monitor over the samples it takes; the exit code. */
  method RunMonitor(samples: seq<Sample>, grace: real) returns (violations: set<Id>, exit: int)
    ensures violations == Violations(samples, grace)
    ensures exit == if violations == {} then 0 else 2
  {
    var since: map<Id, real> := map[];
    violations := {};
    for k := 0 to |samples|
      invariant since == Since(samples[..k]) && violations == Violations(samples[..k], grace)
    {
      since := UpdateUnhealthySince(since, samples[k]);
      violations := violations + Sustained(since, samples[k].now, grace);
      assert samples[..k + 1][..k] == samples[..k];
    }
    assert samples[..|samples|] == samples;
    exit := if violations != {} then 2 else 0;
  }

  // ------------------------------------------------------------------ what it means

  predicate Ordered(samples: seq<Sample>) {
    forall i, j :: 0 <= i <= j < |samples| ==> samples[i].now <= samples[j].now
  }

  /** Samples i to j all show id unhealthy. */
  predicate Block(samples: seq<Sample>, id: Id, i: int, j: int) {
    0 <= i <= j < |samples| && forall k :: i <= k <= j ==> Unhealthy(samples[k], id)
  }

  /** The bookkeeping holds, for each id unhealthy in the last sample, the time its current
      unhealthy stretch began. */
  lemma {:induction false} SinceIsStretch(samples: seq<Sample>, id: Id) returns (start: nat)
    requires samples != []
    ensures id in Since(samples) <==> Unhealthy(samples[|samples| - 1], id)
    ensures id in Since(samples) ==>
      && Block(samples, id, start, |samples| - 1) && Since(samples)[id] == samples[start].now
      && (start > 0 ==> !Unhealthy(samples[start - 1], id))
  {
    var last := |samples| - 1;
    var front := samples[..last];
    start := last;
    if front != [] {
      var earlier := SinceIsStretch(front, id);
      if id in Since(front) {
        start := earlier;
      }
    }
  }

  lemma {:induction false} BlockViolates(samples: seq<Sample>, grace: real, id: Id, i: int, j: int)
    requires Ordered(samples) && Block(samples, id, i, j) && samples[j].now - samples[i].now >= grace
    ensures id in Violations(samples, grace)
  {
    var last := |samples| - 1;
    if j < last {
      BlockViolates(samples[..last], grace, id, i, j);
    } else {
      var start := SinceIsStretch(samples, id);
    }
  }

  lemma {:induction false} ViolationHasBlock(samples: seq<Sample>, grace: real, id: Id) returns (i: int, j: int)
    requires id in Violations(samples, grace)
    ensures Block(samples, id, i, j) && samples[j].now - samples[i].now >= grace
  {
    var last := |samples| - 1;
    if id in Violations(samples[..last], grace) {
      i, j := ViolationHasBlock(samples[..last], grace, id);
    } else {
      i := SinceIsStretch(samples, id);
      j := last;
    }
  }

  /** The reported ids are exactly those that some unbroken run of samples shows unhealthy
      for at least the grace time from its first sample to its last. */
  lemma ViolationsAreBlocks(samples: seq<Sample>, grace: real, id: Id)
    requires Ordered(samples)
    ensures id in Violations(samples, grace)
       <==> exists i, j :: Block(samples, id, i, j) && samples[j].now - samples[i].now >= grace
  {
    if id in Violations(samples, grace) {
      var i, j := ViolationHasBlock(samples, grace, id);
    }
    if i, j :| Block(samples, id, i, j) && samples[j].now - samples[i].now >= grace {
      BlockViolates(samples, grace, id, i, j);
    }
  }
}

/** Step 0: the changelog must exist before a shard is replayed; successes are remembered. */
module Topics {
  import opened Types
  import opened Environments
  import Names

  class ChangelogTopics {
    const env: Environment
    const mayCreate: bool  // create_topics_retention_ms is set
    const verifies: bool  // the policy check is wanted
    var checked: set<TP>

    constructor (env: Environment, mayCreate: bool, verifies: bool)
      ensures checked == {} && this.env == env && this.mayCreate == mayCreate && this.verifies == verifies
    {
      this.env, this.mayCreate, this.verifies, checked := env, mayCreate, verifies, {};
    }

    /** Whether an admin call fails, and how `ensure_and_verify` reports it. */
    method AdminTrouble() returns (e: Option<Error>)
      modifies env`faults
      ensures e.None? ==> env.faults == old(env.faults)
      ensures e.Some? ==> BrokerReported(e.value, old(env.faults), env.faults)
    {
      var raised := env.KafkaTrouble();
      e := if raised == Some(KafkaError) then Some(RehydrateError) else raised;
    }

    /** `ensure_and_verify`.  A name that is remembered, or that fails to be one, needs no broker. */
    method EnsureAndVerify(tp: TP) returns (r: Result<string>)
      modifies this, env`topics, env`faults
      ensures r.Ok? ==> r == Names.ChangelogName(tp) && checked == old(checked) + {tp} && env.faults == old(env.faults)
      ensures r.Err? ==> checked == old(checked)
      ensures r == Err(ConfigError) <==> Names.ChangelogName(tp).Err?
      ensures r.Err? && tp in checked ==> r == Err(ConfigError)
      // the topic exists afterwards, and was created only where that is allowed
      ensures r.Ok? && tp !in old(checked) ==> r.value in env.topics
      ensures env.topics == old(env.topics)
           || (mayCreate && Names.ChangelogName(tp).Ok?
               && env.topics == old(env.topics) + {Names.ChangelogName(tp).value})
      // a missing topic is the one thing that fails where no broker does
      ensures r == Err(TopicNotFoundError) ==>
                && !mayCreate && tp !in checked && env.faults == old(env.faults)
                && Names.ChangelogName(tp).value !in env.topics
      ensures r.Err? && env.faults == old(env.faults) ==> r.error in {ConfigError, TopicNotFoundError}
      ensures r.Err? && env.faults != old(env.faults) ==> BrokerReported(r.error, old(env.faults), env.faults)
    {
      r := Names.ChangelogName(tp);
      if r.Err? || tp in checked {
        assert r.Ok? ==> checked == checked + {tp};
        return;
      }
      var e := AdminTrouble();
      if e.None? && r.value !in env.topics {
        if !mayCreate {
          return Err(TopicNotFoundError);
        }
        e := AdminTrouble();
        if e.None? {
          env.topics := env.topics + {r.value};
        }
      }
      if e.None? && verifies {
        e := AdminTrouble();
      }
      if e.Some? {
        return Err(e.value);
      }
      checked := checked + {tp};
    }
  }

  /** What a broker raised is the last fault; a KafkaError is reported as RehydrateError, a cancellation
      passes. */
  predicate BrokerReported(error: Error, faults: seq<Error>, faults': seq<Error>) {
    || (error == RehydrateError && faults' == faults + [KafkaError])
    || (error == Cancelled && faults' == faults + [Cancelled])
  }
}

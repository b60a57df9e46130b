/**
 * NXLogger: a named logger holding an ordered collection of targets. A log call builds the
 * client info once, then reaches each target individually: a target whose maximum level admits
 * the message's level has its own formatter render the message and writes it.
 */
module Loggers {
  import opened Optional
  import opened LogTypes
  import opened LogClientInfo
  import opened Errors
  import opened Exceptions
  import opened LogFormatter
  import opened Targets

  /** What a target is configured with: its maximum level and its formatter. */
  datatype TargetConfig<M> = TargetConfig(maxLogLevel: Level, formatter: Formatter<M>)

  /** The arguments of one log call, with the client info already built. */
  datatype LogCall = LogCall(level: Level, client: ClientInfo, error: Option<NSError>,
                             exception: Option<Exception>, format: Option<string>,
                             arguments: seq<FormatArgument>)

  /** One message written by one target: the target's position and what it wrote. */
  datatype Delivery<M> = Delivery(target: nat, entry: Entry<M>)

  /** The configuration of each target, in order. */
  function ConfigsOf<M>(targets: seq<LogTarget<M>>): (configs: seq<TargetConfig<M>>)
    reads targets
    ensures |configs| == |targets|
    ensures forall i :: 0 <= i < |targets| ==>
              configs[i] == TargetConfig(targets[i].maxLogLevel, targets[i].logFormatter)
  {
    if |targets| == 0 then []
    else ConfigsOf(targets[..|targets| - 1]) + [TargetConfig(targets[|targets| - 1].maxLogLevel, targets[|targets| - 1].logFormatter)]
  }

  /** The message a target with this configuration writes for the call. */
  function Rendered<M>(loggerName: string, config: TargetConfig<M>, call: LogCall): M
  {
    MessageForLogger(config.formatter, loggerName, call.level, call.client, call.error,
                     call.exception, call.format, call.arguments)
  }

  /**
   * The messages a log call writes, in target order: every target whose maximum level admits
   * the call's level writes once, its own formatter's rendering; no other target writes.
   * DeliveriesSound and DeliveriesComplete state this.
   */
  function Deliveries<M>(loggerName: string, configs: seq<TargetConfig<M>>, call: LogCall)
    : (ds: seq<Delivery<M>>)
    ensures |ds| <= |configs|
    decreases |configs|
  {
    if |configs| == 0 then []
    else
      var last := |configs| - 1;
      var earlier := Deliveries(loggerName, configs[..last], call);
      if Passes(call.level, configs[last].maxLogLevel) then
        earlier + [Delivery(last, Entry(call.level, Rendered(loggerName, configs[last], call)))]
      else earlier
  }

  /** The entries of the deliveries that went to target t (which may sit at several positions). */
  function EntriesFor<M>(ds: seq<Delivery<M>>, targets: seq<LogTarget<M>>, t: LogTarget<M>): seq<Entry<M>>
  {
    if |ds| == 0 then []
    else
      var d := ds[|ds| - 1];
      EntriesFor(ds[..|ds| - 1], targets, t)
      + (if d.target < |targets| && targets[d.target] == t then [d.entry] else [])
  }

  /**
   * Only targets that admit the call's level write, each at most once and in target order,
   * and what each writes is its own formatter's rendering of the call.
   */
  lemma {:induction false} DeliveriesSound<M>(loggerName: string, configs: seq<TargetConfig<M>>, call: LogCall)
    ensures forall k :: 0 <= k < |Deliveries(loggerName, configs, call)| ==>
              var d := Deliveries(loggerName, configs, call)[k];
              && d.target < |configs|
              && Passes(call.level, configs[d.target].maxLogLevel)
              && d.entry == Entry(call.level, Rendered(loggerName, configs[d.target], call))
    ensures forall k, l :: 0 <= k < l < |Deliveries(loggerName, configs, call)| ==>
              Deliveries(loggerName, configs, call)[k].target < Deliveries(loggerName, configs, call)[l].target
    decreases |configs|
  {
    if |configs| > 0 {
      var last := |configs| - 1;
      var earlier := Deliveries(loggerName, configs[..last], call);
      DeliveriesSound(loggerName, configs[..last], call);
      assert forall i :: 0 <= i < last ==> configs[..last][i] == configs[i];
      var ds := Deliveries(loggerName, configs, call);
      if Passes(call.level, configs[last].maxLogLevel) {
        assert ds == earlier + [Delivery(last, Entry(call.level, Rendered(loggerName, configs[last], call)))];
        assert forall k :: 0 <= k < |earlier| ==> ds[k] == earlier[k] && ds[k].target < last;
      } else {
        assert ds == earlier;
      }
    }
  }

  /** Every target that admits the call's level writes: the deliveries leave out no such target. */
  lemma {:induction false} DeliveriesComplete<M>(loggerName: string, configs: seq<TargetConfig<M>>, call: LogCall, i: nat)
    requires i < |configs| && Passes(call.level, configs[i].maxLogLevel)
    ensures exists k :: 0 <= k < |Deliveries(loggerName, configs, call)|
                        && Deliveries(loggerName, configs, call)[k].target == i
    decreases |configs|
  {
    var ds := Deliveries(loggerName, configs, call);
    var last := |configs| - 1;
    var earlier := Deliveries(loggerName, configs[..last], call);
    if i == last {
      assert ds[|ds| - 1].target == i;
    } else {
      assert configs[..last][i] == configs[i];
      DeliveriesComplete(loggerName, configs[..last], call, i);
      var k :| 0 <= k < |earlier| && earlier[k].target == i;
      assert ds[k] == earlier[k];
    }
  }

  /** Taking one more target into account adds its delivery, if it admits the level. */
  lemma DeliveriesStep<M>(loggerName: string, configs: seq<TargetConfig<M>>, i: nat, call: LogCall)
    requires i < |configs|
    ensures Deliveries(loggerName, configs[..i + 1], call)
            == Deliveries(loggerName, configs[..i], call)
               + (if Passes(call.level, configs[i].maxLogLevel)
                  then [Delivery(i, Entry(call.level, Rendered(loggerName, configs[i], call)))] else [])
  {
    assert configs[..i + 1][..i] == configs[..i];
  }

  /** One more delivery adds its entry to the target it went to, and to no other. */
  lemma EntriesForStep<M>(ds: seq<Delivery<M>>, d: Delivery<M>, targets: seq<LogTarget<M>>, t: LogTarget<M>)
    ensures EntriesFor(ds + [d], targets, t)
            == EntriesFor(ds, targets, t) + (if d.target < |targets| && targets[d.target] == t then [d.entry] else [])
  {
    assert (ds + [d])[..|ds|] == ds;
  }

  /** The targets without t: every occurrence removed, the others kept in order. */
  function Without<M>(targets: seq<LogTarget<M>>, t: LogTarget<M>): (r: seq<LogTarget<M>>)
    ensures t !in r
    ensures forall u :: u in r ==> u in targets
    ensures forall u :: u in targets && u != t ==> multiset(r)[u] == multiset(targets)[u]
  {
    if |targets| == 0 then []
    else
      var rest := Without(targets[1..], t);
      assert targets == [targets[0]] + targets[1..];
      if targets[0] == t then rest else [targets[0]] + rest
  }

  /** Removing a target that is not there changes nothing. */
  lemma {:induction false} WithoutAbsent<M>(targets: seq<LogTarget<M>>, t: LogTarget<M>)
    requires t !in targets
    ensures Without(targets, t) == targets
  {
    if |targets| > 0 {
      WithoutAbsent(targets[1..], t);
      assert targets == [targets[0]] + targets[1..];
    }
  }

  /** No target passes when every target's maximum level is None and the level is concrete. */
  lemma {:induction false} SilentWhenAllNone<M>(loggerName: string, configs: seq<TargetConfig<M>>, call: LogCall)
    requires IsConcrete(call.level)
    requires forall i :: 0 <= i < |configs| ==> configs[i].maxLogLevel == LevelNone
    ensures Deliveries(loggerName, configs, call) == []
  {
    var ds := Deliveries(loggerName, configs, call);
    DeliveriesSound(loggerName, configs, call);
    if |ds| > 0 {
      assert Passes(call.level, configs[ds[0].target].maxLogLevel);
      NoneLogsNothing(call.level);
      assert false;
    }
  }

  /** When every target admits the level, every target writes exactly once, in order. */
  lemma {:induction false} EveryTargetWhenAllPass<M>(loggerName: string, configs: seq<TargetConfig<M>>, call: LogCall)
    requires forall i :: 0 <= i < |configs| ==> Passes(call.level, configs[i].maxLogLevel)
    ensures |Deliveries(loggerName, configs, call)| == |configs|
    ensures forall k :: 0 <= k < |configs| ==> Deliveries(loggerName, configs, call)[k].target == k
    decreases |configs|
  {
    if |configs| > 0 {
      EveryTargetWhenAllPass(loggerName, configs[..|configs| - 1], call);
    }
  }

  class Logger<M> {
    const name: string
    var targets: seq<LogTarget<M>>

    /** initWithName:target: — a logger with the name and exactly the one target; it is not registered. */
    constructor (name: string, target: LogTarget<M>)
      ensures this.name == name && targets == [target]
    {
      this.name := name;
      targets := [target];
    }

    /** addLogTarget: — the target joins the end; the previous targets stay, in order. */
    method AddLogTarget(target: LogTarget<M>)
      modifies this`targets
      ensures targets == old(targets) + [target]
      ensures target in targets && forall u :: u in old(targets) ==> u in targets
    {
      targets := targets + [target];
    }

    /** removeLogTarget: — every occurrence of the target leaves; the others stay, in order. */
    method RemoveLogTarget(target: LogTarget<M>)
      modifies this`targets
      ensures targets == Without(old(targets), target)
      ensures target !in targets
      ensures forall u :: u != target ==> multiset(targets)[u] == multiset(old(targets))[u]
    {
      targets := Without(targets, target);
    }

    /**
     * log:info:error:exception:format:arguments: — builds the client info from the info
     * dictionary and dispatches the call to the targets. Returns the deliveries made, in order.
     */
    method Log(level: Level, info: InfoDictionary, environment: Property -> Option<string>,
               error: Option<NSError>, exception: Option<Exception>,
               format: Option<string>, arguments: seq<FormatArgument>)
      returns (sent: seq<Delivery<M>>)
      modifies targets`written
      ensures forall t :: t in targets ==> t.maxLogLevel == old(t.maxLogLevel) && t.logFormatter == old(t.logFormatter)
      ensures ConfigsOf(targets) == old(ConfigsOf(targets))
      ensures sent == Deliveries(name, old(ConfigsOf(targets)),
                                 LogCall(level, InitWithSourceCodeInfo(info, environment), error, exception, format, arguments))
      ensures forall t :: t in targets ==> t.written == old(t.written) + EntriesFor(sent, targets, t)
    {
      sent := Dispatch(LogCall(level, InitWithSourceCodeInfo(info, environment), error, exception, format, arguments));
    }

    /**
     * Target by target, in order: each target that admits the call's level writes the message
     * its own formatter renders; the others are skipped.
     */
    method Dispatch(call: LogCall) returns (sent: seq<Delivery<M>>)
      modifies targets`written
      ensures forall t :: t in targets ==> t.maxLogLevel == old(t.maxLogLevel) && t.logFormatter == old(t.logFormatter)
      ensures ConfigsOf(targets) == old(ConfigsOf(targets))
      ensures sent == Deliveries(name, old(ConfigsOf(targets)), call)
      ensures forall t :: t in targets ==> t.written == old(t.written) + EntriesFor(sent, targets, t)
    {
      ghost var configs := ConfigsOf(targets);
      ghost var initial := map u | u in targets :: u.written;
      sent := [];
      var i := 0;
      while i < |targets|
        invariant 0 <= i <= |targets|
        invariant forall j :: 0 <= j < |targets| ==>
                    configs[j] == TargetConfig(targets[j].maxLogLevel, targets[j].logFormatter)
        invariant sent == Deliveries(name, configs[..i], call)
        invariant forall u :: u in targets ==> u in initial && u.written == initial[u] + EntriesFor(sent, targets, u)
      {
        sent := DeliverAt(i, call, configs, initial, sent);
        i := i + 1;
      }
      assert configs[..|targets|] == configs;
      assert ConfigsOf(targets) == configs;
    }

    /** One step of Dispatch: the target at position i writes if it admits the call's level. */
    method DeliverAt(i: nat, call: LogCall, ghost configs: seq<TargetConfig<M>>,
                     ghost initial: map<LogTarget<M>, seq<Entry<M>>>, sent: seq<Delivery<M>>)
      returns (next: seq<Delivery<M>>)
      requires i < |targets| == |configs|
      requires configs[i] == TargetConfig(targets[i].maxLogLevel, targets[i].logFormatter)
      requires sent == Deliveries(name, configs[..i], call)
      requires forall u :: u in targets ==> u in initial && u.written == initial[u] + EntriesFor(sent, targets, u)
      modifies (targets[i] as LogTarget<M>)`written
      ensures next == Deliveries(name, configs[..i + 1], call)
      ensures forall u :: u in targets ==> u.written == initial[u] + EntriesFor(next, targets, u)
    {
      var t := targets[i];
      DeliveriesStep(name, configs, i, call);
      next := sent;
      if Passes(call.level, t.maxLogLevel) {
        var message := MessageForLogger(t.logFormatter, name, call.level, call.client, call.error,
                                        call.exception, call.format, call.arguments);
        t.Log(call.level, message);
        var d := Delivery(i, Entry(call.level, message));
        forall u | u in targets
          ensures u.written == initial[u] + EntriesFor(sent + [d], targets, u)
        {
          EntriesForStep(sent, d, targets, u);
        }
        next := sent + [d];
      }
    }
  }
}

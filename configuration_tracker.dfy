/** BPDModel2ConfigurationTracker: an append-only list of time windows, each
    carrying a configuration, searched in insertion order for the first window
    holding a given time, with a default configuration when none does. */
module ConfigurationTracker {
  import opened Configuration

  /** One window [startTimeSeconds, endTimeSeconds) and its configuration. Its
      properties are read-only, so it is a value. */
  datatype ConfigurationTimePeriod = ConfigurationTimePeriod(
    configuration: BPDModel2Configuration,
    startTimeSeconds: real := 0.0,
    endTimeSeconds: real := 10.0)

  /** The lookup's test: the window is half-open, start inclusive, end exclusive. */
  predicate Covers(e: ConfigurationTimePeriod, t: real)
  {
    e.startTimeSeconds <= t && e.endTimeSeconds > t
  }

  /** The position of the first window that covers t, or |entries| when none does. */
  function FirstCovering(entries: seq<ConfigurationTimePeriod>, t: real): (k: nat)
    ensures k <= |entries|
    ensures forall j :: 0 <= j < k ==> !Covers(entries[j], t)
    ensures k < |entries| ==> Covers(entries[k], t)
  {
    if entries == [] then 0
    else if Covers(entries[0], t) then 0
    else 1 + FirstCovering(entries[1..], t)
  }

  /** What a lookup at time t answers: the configuration of the first covering
      window, or the default. */
  function Active(entries: seq<ConfigurationTimePeriod>, default: BPDModel2Configuration, t: real): BPDModel2Configuration
  {
    var k := FirstCovering(entries, t);
    if k < |entries| then entries[k].configuration else default
  }

  /** A window covering t, preceded only by windows that do not, decides the lookup. */
  lemma ActiveIsFirstMatch(entries: seq<ConfigurationTimePeriod>, default: BPDModel2Configuration, t: real, k: nat)
    requires k < |entries| && Covers(entries[k], t)
    requires forall j :: 0 <= j < k ==> !Covers(entries[j], t)
    ensures Active(entries, default, t) == entries[k].configuration
  {
  }

  /** With no window covering t, including with no window at all, the lookup
      gives the default. */
  lemma ActiveDefaultsWhenUncovered(entries: seq<ConfigurationTimePeriod>, default: BPDModel2Configuration, t: real)
    requires forall j :: 0 <= j < |entries| ==> !Covers(entries[j], t)
    ensures Active(entries, default, t) == default
  {
  }

  /** Appending a window keeps the first covering position of every time some
      earlier window covers. */
  lemma {:induction false} FirstCoveringAppend(entries: seq<ConfigurationTimePeriod>, e: ConfigurationTimePeriod, t: real)
    ensures FirstCovering(entries + [e], t) ==
              if FirstCovering(entries, t) < |entries| then FirstCovering(entries, t)
              else if Covers(e, t) then |entries| else |entries| + 1
  {
    if entries != [] {
      assert (entries + [e])[1..] == entries[1..] + [e];
      FirstCoveringAppend(entries[1..], e, t);
    }
  }

  /** Appending never changes the answer at a time an earlier window covers. */
  lemma AppendKeepsCoveredTimes(entries: seq<ConfigurationTimePeriod>, e: ConfigurationTimePeriod, default: BPDModel2Configuration, t: real)
    requires exists j :: 0 <= j < |entries| && Covers(entries[j], t)
    ensures Active(entries + [e], default, t) == Active(entries, default, t)
  {
    FirstCoveringAppend(entries, e, t);
    var j :| 0 <= j < |entries| && Covers(entries[j], t);
    assert FirstCovering(entries, t) <= j;
  }

  /** Appending can only change the answer at a time that used to get the
      default, and there it gives the new window's configuration exactly when
      the new window covers that time. */
  lemma AppendOnlyFillsDefaults(entries: seq<ConfigurationTimePeriod>, e: ConfigurationTimePeriod, default: BPDModel2Configuration, t: real)
    requires forall j :: 0 <= j < |entries| ==> !Covers(entries[j], t)
    ensures Active(entries + [e], default, t) == if Covers(e, t) then e.configuration else default
  {
    FirstCoveringAppend(entries, e, t);
  }

  /** A window holds its start time but not its end time. */
  lemma HalfOpen(e: ConfigurationTimePeriod)
    ensures Covers(e, e.startTimeSeconds) <==> e.startTimeSeconds < e.endTimeSeconds
    ensures !Covers(e, e.endTimeSeconds)
  {
  }

  /** A window whose start is not before its end holds no time at all. */
  lemma EmptyWindowNeverCovers(e: ConfigurationTimePeriod, t: real)
    requires e.startTimeSeconds >= e.endTimeSeconds
    ensures !Covers(e, t)
  {
  }

  /** Two adjacent windows [0, 10) and [10, 20) with a default: 5 gets the
      first, 15 and the shared boundary 10 get the second, 25 and -1 get the
      default. */
  lemma {:induction false} AdjacentWindowsExample(a: BPDModel2Configuration, b: BPDModel2Configuration, d: BPDModel2Configuration)
    ensures var entries := [ConfigurationTimePeriod(a, 0.0, 10.0), ConfigurationTimePeriod(b, 10.0, 20.0)];
      && Active(entries, d, 5.0) == a
      && Active(entries, d, 15.0) == b
      && Active(entries, d, 10.0) == b
      && Active(entries, d, 25.0) == d
      && Active(entries, d, -1.0) == d
  {
    var entries := [ConfigurationTimePeriod(a, 0.0, 10.0), ConfigurationTimePeriod(b, 10.0, 20.0)];
    ActiveIsFirstMatch(entries, d, 5.0, 0);
    ActiveIsFirstMatch(entries, d, 15.0, 1);
    ActiveIsFirstMatch(entries, d, 10.0, 1);
    ActiveDefaultsWhenUncovered(entries, d, 25.0);
    ActiveDefaultsWhenUncovered(entries, d, -1.0);
  }

  class BPDModel2ConfigurationTracker {
    var configurations: seq<ConfigurationTimePeriod>
    var defaultConfiguration: BPDModel2Configuration

    /** A new tracker has no windows and a default-constructed configuration. */
    constructor ()
      ensures configurations == []
      ensures fresh(defaultConfiguration)
      ensures defaultConfiguration.Params() == DefaultParameters
    {
      configurations := [];
      defaultConfiguration := new BPDModel2Configuration();
    }

    /** The DefaultConfiguration setter replaces the default and nothing else. */
    method SetDefaultConfiguration(value: BPDModel2Configuration)
      modifies this
      ensures defaultConfiguration == value
      ensures configurations == old(configurations)
    {
      defaultConfiguration := value;
    }

    /** Scans the windows in insertion order and returns the first covering
        one's configuration, else the default; it changes nothing. */
    method GetActiveConfiguration(timeSeconds: real := 0.0) returns (c: BPDModel2Configuration)
      ensures c == Active(configurations, defaultConfiguration, timeSeconds)
    {
      var tSec := timeSeconds;
      var k := 0;
      while k < |configurations|
        invariant 0 <= k <= |configurations|
        invariant forall j :: 0 <= j < k ==> !Covers(configurations[j], tSec)
      {
        var configuration := configurations[k];
        if configuration.startTimeSeconds <= tSec {
          if configuration.endTimeSeconds > tSec {
            ActiveIsFirstMatch(configurations, defaultConfiguration, tSec, k);
            return configuration.configuration;
          }
        }
        k := k + 1;
      }
      ActiveDefaultsWhenUncovered(configurations, defaultConfiguration, tSec);
      return defaultConfiguration;
    }

    /** Appends one window at the end, with no ordering or overlap check. */
    method AddConfiguration(configuration: BPDModel2Configuration, startTimeSeconds: real, endTimeSeconds: real)
      modifies this
      ensures configurations == old(configurations) + [ConfigurationTimePeriod(configuration, startTimeSeconds, endTimeSeconds)]
      ensures defaultConfiguration == old(defaultConfiguration)
    {
      configurations := configurations + [ConfigurationTimePeriod(configuration, startTimeSeconds, endTimeSeconds)];
    }
  }
}

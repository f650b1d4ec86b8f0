/**
 * The log listener: registered with the server's log package, it turns every
 * log call whose severity is enabled in `levels` into one event on the recorder.
 */
module Listener {
  import opened Wrappers
  import opened Plugin
  import opened Events
  import GoText

  class Listener {
    const recorder: Recorder
    const ref: Option<ObjectRef>
    const levels: Mask
    /** The random number drawn when the listener is made (`rn.Int()`), taken as a parameter. */
    const id: nat

    /** `newListener` */
    constructor (ref: Option<ObjectRef>, recorder: Recorder, levels: Mask, id: nat)
      ensures this.ref == ref && this.recorder == recorder && this.levels == levels && this.id == id
    {
      this.recorder := recorder;
      this.ref := ref;
      this.levels := levels;
      this.id := id;
    }

    /** The name the listener is registered under: the plugin name, a dash, and the id in decimal. */
    function Name(): (s: string)
      ensures |s| > |PluginName| + 1 && s[..|PluginName| + 1] == PluginName + "-"
      ensures GoText.IsDigits(s[|PluginName| + 1..]) && GoText.DecimalValue(s[|PluginName| + 1..]) == id
      ensures s[|PluginName| + 1] == '0' ==> id == 0 && s == PluginName + "-0"
    {
      GoText.DecimalRoundTrip(id);
      var s := PluginName + "-" + GoText.Decimal(id);
      assert s[|PluginName| + 1..] == GoText.Decimal(id);
      s
    }

    method Debug(plugin: string, v: seq<GoText.Value>)
      modifies recorder
      ensures recorder.events == old(recorder.events) + Emitted(levels, ref, Level.Debug, plugin + GoText.Sprint(v))
    {
      if levels & (1 << Level.Debug.Ordinal()) > 0 {
        recorder.Eventf(ref, EventTypeNormal, "CoreDNSDebug", plugin + GoText.Sprint(v));
      }
    }

    method Debugf(plugin: string, format: string, v: seq<GoText.Value>)
      modifies recorder
      ensures recorder.events == old(recorder.events) + Emitted(levels, ref, Level.Debug, plugin + GoText.Sprintf(format, v))
    {
      if levels & (1 << Level.Debug.Ordinal()) > 0 {
        recorder.Eventf(ref, EventTypeNormal, "CoreDNSDebug", plugin + GoText.Sprintf(format, v));
      }
    }

    method Info(plugin: string, v: seq<GoText.Value>)
      modifies recorder
      ensures recorder.events == old(recorder.events) + Emitted(levels, ref, Level.Info, plugin + GoText.Sprint(v))
    {
      if levels & (1 << Level.Info.Ordinal()) > 0 {
        recorder.Eventf(ref, EventTypeNormal, "CoreDNSInfo", plugin + GoText.Sprint(v));
      }
    }

    method Infof(plugin: string, format: string, v: seq<GoText.Value>)
      modifies recorder
      ensures recorder.events == old(recorder.events) + Emitted(levels, ref, Level.Info, plugin + GoText.Sprintf(format, v))
    {
      if levels & (1 << Level.Info.Ordinal()) > 0 {
        recorder.Eventf(ref, EventTypeNormal, "CoreDNSInfo", plugin + GoText.Sprintf(format, v));
      }
    }

    method Warning(plugin: string, v: seq<GoText.Value>)
      modifies recorder
      ensures recorder.events == old(recorder.events) + Emitted(levels, ref, Level.Warning, plugin + GoText.Sprint(v))
    {
      if levels & (1 << Level.Warning.Ordinal()) > 0 {
        recorder.Eventf(ref, EventTypeWarning, "CoreDNSWarning", plugin + GoText.Sprint(v));
      }
    }

    method Warningf(plugin: string, format: string, v: seq<GoText.Value>)
      modifies recorder
      ensures recorder.events == old(recorder.events) + Emitted(levels, ref, Level.Warning, plugin + GoText.Sprintf(format, v))
    {
      if levels & (1 << Level.Warning.Ordinal()) > 0 {
        recorder.Eventf(ref, EventTypeWarning, "CoreDNSWarning", plugin + GoText.Sprintf(format, v));
      }
    }

    method Error(plugin: string, v: seq<GoText.Value>)
      modifies recorder
      ensures recorder.events == old(recorder.events) + Emitted(levels, ref, Level.Error, plugin + GoText.Sprint(v))
    {
      if levels & (1 << Level.Error.Ordinal()) > 0 {
        recorder.Eventf(ref, EventTypeWarning, "CoreDNSError", plugin + GoText.Sprint(v));
      }
    }

    method Errorf(plugin: string, format: string, v: seq<GoText.Value>)
      modifies recorder
      ensures recorder.events == old(recorder.events) + Emitted(levels, ref, Level.Error, plugin + GoText.Sprintf(format, v))
    {
      if levels & (1 << Level.Error.Ordinal()) > 0 {
        recorder.Eventf(ref, EventTypeWarning, "CoreDNSError", plugin + GoText.Sprintf(format, v));
      }
    }

    method Fatal(plugin: string, v: seq<GoText.Value>)
      modifies recorder
      ensures recorder.events == old(recorder.events) + Emitted(levels, ref, Level.Fatal, plugin + GoText.Sprint(v))
    {
      if levels & (1 << Level.Fatal.Ordinal()) > 0 {
        recorder.Eventf(ref, EventTypeWarning, "CoreDNSFatal", plugin + GoText.Sprint(v));
      }
    }

    method Fatalf(plugin: string, format: string, v: seq<GoText.Value>)
      modifies recorder
      ensures recorder.events == old(recorder.events) + Emitted(levels, ref, Level.Fatal, plugin + GoText.Sprintf(format, v))
    {
      if levels & (1 << Level.Fatal.Ordinal()) > 0 {
        recorder.Eventf(ref, EventTypeWarning, "CoreDNSFatal", plugin + GoText.Sprintf(format, v));
      }
    }
  }

  /** Two listeners share a name exactly when they drew the same id. */
  lemma NameIdentifiesListener(a: Listener, b: Listener)
    ensures a.Name() == b.Name() <==> a.id == b.id
  {
    if a.Name() == b.Name() {
      assert a.Name()[|PluginName| + 1..] == b.Name()[|PluginName| + 1..];
    }
  }

  /**
   * One plain and one formatted call per severity, in the order of listener_test.go:
   * the recorder gains exactly the events of `AllSeverities`.
   */
  method TenCalls(l: Listener, plugin: string, format: string, v: seq<GoText.Value>)
    modifies l.recorder
    ensures l.recorder.events
      == old(l.recorder.events) + AllSeverities(l.levels, l.ref, plugin + GoText.Sprint(v), plugin + GoText.Sprintf(format, v))
  {
    ghost var plain, formatted := plugin + GoText.Sprint(v), plugin + GoText.Sprintf(format, v);
    ghost var e0 := l.recorder.events;
    l.Debug(plugin, v);
    ghost var done := Emitted(l.levels, l.ref, Level.Debug, plain);
    ghost var before: seq<Event>;
    before := l.recorder.events;
    l.Debugf(plugin, format, v);
    AppendStep(e0, done, before, Emitted(l.levels, l.ref, Level.Debug, formatted), l.recorder.events);
    done := done + Emitted(l.levels, l.ref, Level.Debug, formatted);
    before := l.recorder.events;
    l.Info(plugin, v);
    AppendStep(e0, done, before, Emitted(l.levels, l.ref, Level.Info, plain), l.recorder.events);
    done := done + Emitted(l.levels, l.ref, Level.Info, plain);
    before := l.recorder.events;
    l.Infof(plugin, format, v);
    AppendStep(e0, done, before, Emitted(l.levels, l.ref, Level.Info, formatted), l.recorder.events);
    done := done + Emitted(l.levels, l.ref, Level.Info, formatted);
    before := l.recorder.events;
    l.Warning(plugin, v);
    AppendStep(e0, done, before, Emitted(l.levels, l.ref, Level.Warning, plain), l.recorder.events);
    done := done + Emitted(l.levels, l.ref, Level.Warning, plain);
    before := l.recorder.events;
    l.Warningf(plugin, format, v);
    AppendStep(e0, done, before, Emitted(l.levels, l.ref, Level.Warning, formatted), l.recorder.events);
    done := done + Emitted(l.levels, l.ref, Level.Warning, formatted);
    before := l.recorder.events;
    l.Error(plugin, v);
    AppendStep(e0, done, before, Emitted(l.levels, l.ref, Level.Error, plain), l.recorder.events);
    done := done + Emitted(l.levels, l.ref, Level.Error, plain);
    before := l.recorder.events;
    l.Errorf(plugin, format, v);
    AppendStep(e0, done, before, Emitted(l.levels, l.ref, Level.Error, formatted), l.recorder.events);
    done := done + Emitted(l.levels, l.ref, Level.Error, formatted);
    before := l.recorder.events;
    l.Fatal(plugin, v);
    AppendStep(e0, done, before, Emitted(l.levels, l.ref, Level.Fatal, plain), l.recorder.events);
    done := done + Emitted(l.levels, l.ref, Level.Fatal, plain);
    before := l.recorder.events;
    l.Fatalf(plugin, format, v);
    AppendStep(e0, done, before, Emitted(l.levels, l.ref, Level.Fatal, formatted), l.recorder.events);
    done := done + Emitted(l.levels, l.ref, Level.Fatal, formatted);
  }
}

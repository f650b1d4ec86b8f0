/**
 * The older form of the log listener: the same ten severity methods over a
 * recorder, a reference and a level mask, without an id or a name.
 */
module Interceptor {
  import opened Wrappers
  import opened Plugin
  import opened Events
  import GoText

  class Interceptor {
    const recorder: Recorder
    const ref: Option<ObjectRef>
    const levels: Mask

    /** `NewInterceptor` */
    constructor (ref: Option<ObjectRef>, recorder: Recorder, levels: Mask)
      ensures this.ref == ref && this.recorder == recorder && this.levels == levels
    {
      this.recorder := recorder;
      this.ref := ref;
      this.levels := levels;
    }

    method Debug(plugin: string, v: seq<GoText.Value>)
      modifies recorder
      ensures recorder.events == old(recorder.events) + Emitted(levels, ref, Level.Debug, plugin + GoText.Sprint(v))
    {
      if levels & (1 << Level.Debug.Ordinal()) > 0 {
        recorder.Eventf(ref, EventTypeNormal, "CoreDNSDebug", plugin + GoText.Sprint(v));
      }
    }

    method Debugf(plugin: string, format: string, v: seq<GoText.Value>)
      modifies recorder
      ensures recorder.events == old(recorder.events) + Emitted(levels, ref, Level.Debug, plugin + GoText.Sprintf(format, v))
    {
      if levels & (1 << Level.Debug.Ordinal()) > 0 {
        recorder.Eventf(ref, EventTypeNormal, "CoreDNSDebug", plugin + GoText.Sprintf(format, v));
      }
    }

    method Info(plugin: string, v: seq<GoText.Value>)
      modifies recorder
      ensures recorder.events == old(recorder.events) + Emitted(levels, ref, Level.Info, plugin + GoText.Sprint(v))
    {
      if levels & (1 << Level.Info.Ordinal()) > 0 {
        recorder.Eventf(ref, EventTypeNormal, "CoreDNSInfo", plugin + GoText.Sprint(v));
      }
    }

    method Infof(plugin: string, format: string, v: seq<GoText.Value>)
      modifies recorder
      ensures recorder.events == old(recorder.events) + Emitted(levels, ref, Level.Info, plugin + GoText.Sprintf(format, v))
    {
      if levels & (1 << Level.Info.Ordinal()) > 0 {
        recorder.Eventf(ref, EventTypeNormal, "CoreDNSInfo", plugin + GoText.Sprintf(format, v));
      }
    }

    method Warning(plugin: string, v: seq<GoText.Value>)
      modifies recorder
      ensures recorder.events == old(recorder.events) + Emitted(levels, ref, Level.Warning, plugin + GoText.Sprint(v))
    {
      if levels & (1 << Level.Warning.Ordinal()) > 0 {
        recorder.Eventf(ref, EventTypeWarning, "CoreDNSWarning", plugin + GoText.Sprint(v));
      }
    }

    method Warningf(plugin: string, format: string, v: seq<GoText.Value>)
      modifies recorder
      ensures recorder.events == old(recorder.events) + Emitted(levels, ref, Level.Warning, plugin + GoText.Sprintf(format, v))
    {
      if levels & (1 << Level.Warning.Ordinal()) > 0 {
        recorder.Eventf(ref, EventTypeWarning, "CoreDNSWarning", plugin + GoText.Sprintf(format, v));
      }
    }

    method Error(plugin: string, v: seq<GoText.Value>)
      modifies recorder
      ensures recorder.events == old(recorder.events) + Emitted(levels, ref, Level.Error, plugin + GoText.Sprint(v))
    {
      if levels & (1 << Level.Error.Ordinal()) > 0 {
        recorder.Eventf(ref, EventTypeWarning, "CoreDNSError", plugin + GoText.Sprint(v));
      }
    }

    method Errorf(plugin: string, format: string, v: seq<GoText.Value>)
      modifies recorder
      ensures recorder.events == old(recorder.events) + Emitted(levels, ref, Level.Error, plugin + GoText.Sprintf(format, v))
    {
      if levels & (1 << Level.Error.Ordinal()) > 0 {
        recorder.Eventf(ref, EventTypeWarning, "CoreDNSError", plugin + GoText.Sprintf(format, v));
      }
    }

    method Fatal(plugin: string, v: seq<GoText.Value>)
      modifies recorder
      ensures recorder.events == old(recorder.events) + Emitted(levels, ref, Level.Fatal, plugin + GoText.Sprint(v))
    {
      if levels & (1 << Level.Fatal.Ordinal()) > 0 {
        recorder.Eventf(ref, EventTypeWarning, "CoreDNSFatal", plugin + GoText.Sprint(v));
      }
    }

    method Fatalf(plugin: string, format: string, v: seq<GoText.Value>)
      modifies recorder
      ensures recorder.events == old(recorder.events) + Emitted(levels, ref, Level.Fatal, plugin + GoText.Sprintf(format, v))
    {
      if levels & (1 << Level.Fatal.Ordinal()) > 0 {
        recorder.Eventf(ref, EventTypeWarning, "CoreDNSFatal", plugin + GoText.Sprintf(format, v));
      }
    }
  }

  /**
   * One plain and one formatted call per severity, in the order of listener_test.go:
   * the recorder gains exactly the events of `AllSeverities`.
   */
  method TenCalls(t: Interceptor, plugin: string, format: string, v: seq<GoText.Value>)
    modifies t.recorder
    ensures t.recorder.events
      == old(t.recorder.events) + AllSeverities(t.levels, t.ref, plugin + GoText.Sprint(v), plugin + GoText.Sprintf(format, v))
  {
    ghost var plain, formatted := plugin + GoText.Sprint(v), plugin + GoText.Sprintf(format, v);
    ghost var e0 := t.recorder.events;
    t.Debug(plugin, v);
    ghost var done := Emitted(t.levels, t.ref, Level.Debug, plain);
    ghost var before: seq<Event>;
    before := t.recorder.events;
    t.Debugf(plugin, format, v);
    AppendStep(e0, done, before, Emitted(t.levels, t.ref, Level.Debug, formatted), t.recorder.events);
    done := done + Emitted(t.levels, t.ref, Level.Debug, formatted);
    before := t.recorder.events;
    t.Info(plugin, v);
    AppendStep(e0, done, before, Emitted(t.levels, t.ref, Level.Info, plain), t.recorder.events);
    done := done + Emitted(t.levels, t.ref, Level.Info, plain);
    before := t.recorder.events;
    t.Infof(plugin, format, v);
    AppendStep(e0, done, before, Emitted(t.levels, t.ref, Level.Info, formatted), t.recorder.events);
    done := done + Emitted(t.levels, t.ref, Level.Info, formatted);
    before := t.recorder.events;
    t.Warning(plugin, v);
    AppendStep(e0, done, before, Emitted(t.levels, t.ref, Level.Warning, plain), t.recorder.events);
    done := done + Emitted(t.levels, t.ref, Level.Warning, plain);
    before := t.recorder.events;
    t.Warningf(plugin, format, v);
    AppendStep(e0, done, before, Emitted(t.levels, t.ref, Level.Warning, formatted), t.recorder.events);
    done := done + Emitted(t.levels, t.ref, Level.Warning, formatted);
    before := t.recorder.events;
    t.Error(plugin, v);
    AppendStep(e0, done, before, Emitted(t.levels, t.ref, Level.Error, plain), t.recorder.events);
    done := done + Emitted(t.levels, t.ref, Level.Error, plain);
    before := t.recorder.events;
    t.Errorf(plugin, format, v);
    AppendStep(e0, done, before, Emitted(t.levels, t.ref, Level.Error, formatted), t.recorder.events);
    done := done + Emitted(t.levels, t.ref, Level.Error, formatted);
    before := t.recorder.events;
    t.Fatal(plugin, v);
    AppendStep(e0, done, before, Emitted(t.levels, t.ref, Level.Fatal, plain), t.recorder.events);
    done := done + Emitted(t.levels, t.ref, Level.Fatal, plain);
    before := t.recorder.events;
    t.Fatalf(plugin, format, v);
    AppendStep(e0, done, before, Emitted(t.levels, t.ref, Level.Fatal, formatted), t.recorder.events);
    done := done + Emitted(t.levels, t.ref, Level.Fatal, formatted);
  }
}

/** Client code exercising the manager through its contracts alone. */
module Scenarios {
  import opened Options
  import opened Contexts
  import opened Expiry
  import opened Continuations

  /** Time-to-live of 100 ms: a context started at 0 is found at 50 and
      gone (evicted) at 150. */
  method ExpiryScenario() {
    var manager := new ContinuationManager(Config(100, 0, 1, _ => false));
    var a := new ContinuationContext("A", 0, Continuable(1, false));
    manager.AddContext(a);
    var found := manager.GetContext("A", 50);
    assert found == a;
    found := manager.GetContext("A", 150);
    assert found == null && "A" !in manager.contexts;
  }

  /** Reusing a context consumes its identifier: a second resume of the same
      identifier finds nothing, while the new identifier resumes the same
      object again. */
  method ReuseScenario() {
    var manager := new ContinuationManager(Config(100, -1, 10, _ => false));
    var a := new ContinuationContext("A", 0, Continuable(1, true));
    manager.AddContext(a);
    var first := manager.ResumeContext("A", 10, 5, "B", false, false);
    assert first == Resumed(a) && a.id == "B";
    var second := manager.ResumeContext("A", 20, 5, "C", false, false);
    assert second == NotFound;
    var third := manager.ResumeContext("B", 30, 5, "C", false, false);
    assert third == Resumed(a) && manager.contexts == map["C" := a];
  }

  /** Cloning leaves the original registered and resumable. */
  method CloneScenario() {
    var manager := new ContinuationManager(Config(100, -1, 10, _ => true));
    var a := new ContinuationContext("A", 0, Continuable(1, true));
    manager.AddContext(a);
    var first := manager.ResumeContext("A", 10, 5, "B", false, false);
    assert first.Resumed? && first.context != a && "A" in manager.contexts;
    var failed := manager.ResumeContext("A", 20, 5, "C", true, false);
    assert failed == Failed(CloneNotSupported) && "C" !in manager.contexts;
  }

  /** Frequency 0 over scale 1 always sweeps: resuming anything removes the
      expired context and keeps the live one. */
  method SweepScenario() {
    var manager := new ContinuationManager(Config(100, 0, 1, _ => false));
    var stale := new ContinuationContext("old", 0, Continuable(1, false));
    var young := new ContinuationContext("young", 150, Continuable(2, false));
    manager.AddContext(stale);
    manager.AddContext(young);
    var r := manager.ResumeContext("missing", 200, 0, "fresh", false, false);
    assert r == NotFound;
    assert "old" !in manager.contexts && manager.contexts["young"] == young;
  }
}

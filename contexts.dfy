/**
 * The continuation context as the manager sees it: an identifier that the
 * manager regenerates when the context re-enters the registry, a start time
 * used only for expiration, a pause flag, and the captured continuable.
 * How the continuable is captured and how a context is cloned internally are
 * not part of this model; only the effects the manager relies on are stated.
 */
module Contexts {

  /** The opaque captured execution. `cloneable` says whether the continuable
      implements the cloneable-continuable capability. */
  datatype Continuable = Continuable(snapshot: nat, cloneable: bool)

  class ContinuationContext {
    var id: string
    var paused: bool
    const start: int
    const continuable: Continuable

    /** A freshly captured context is paused. */
    constructor (id: string, start: int, continuable: Continuable)
      ensures this.id == id && this.start == start && this.continuable == continuable
      ensures paused
    {
      this.id := id;
      this.start := start;
      this.continuable := continuable;
      paused := true;
    }

    /** Gives the context a new identifier; `newId` stands for the unique
        identifier the context generates itself. Nothing else changes. */
    method ResetId(newId: string)
      modifies this
      ensures id == newId && paused == old(paused)
    {
      id := newId;
    }

    /** Copies the context. `throws` stands for the continuable's own copy
        raising CloneNotSupportedException, in which case no copy exists.
        The copy has the same identifier until the manager resets it. */
    method Clone(throws: bool) returns (copy: ContinuationContext?)
      ensures throws <==> copy == null
      ensures copy != null ==> fresh(copy) && copy.id == id && copy.start == start
                               && copy.continuable == continuable && copy.paused == paused
    {
      if throws {
        copy := null;
      } else {
        copy := new ContinuationContext(id, start, continuable);
        copy.paused := paused;
      }
    }
  }
}

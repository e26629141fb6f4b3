/**
 * The stateful parts of the tkinter adapter: the `Event` wrapper, which
 * may be armed once, and `patch_unbind`, which installs the replacement
 * unbind once.  The toolkit's `bind` result is a parameter; what the
 * callback asks of the toolkit and of the body is returned as a list of
 * actions.
 */
module TkEvent {
  import opened Optional

  /** What `Event.callback` does, in order. */
  datatype Action<K> =
      /** `self.widget.unbind(self.name, self.bind_id)` */
    | Unbind(sequence: string, funcid: Option<string>)
      /** `self.resume_gen()` */
    | CallResume(k: K)

  /** `tkinter.Event(widget, name)`: resumes the body on the next occurrence of the event `name`. */
  class BindEvent<K> {
    const name: string
    var bindId: Option<string>
    /** `self.resume_gen`; the attribute does not exist before the first arm. */
    var resume: Option<K>

    /** The instance as constructed: `bind_id` is None. */
    predicate Fresh()
      reads this
    {
      bindId.None? && resume.None?
    }

    constructor(name: string)
      ensures this.name == name && Fresh()
    {
      this.name := name;
      bindId := None;
      resume := None;
    }

    /**
     * `__call__`: `assert self.bind_id is None`, then the bind id the
     * toolkit returned and the resume are stored.  `ok` is false when the
     * assertion fails; then nothing is bound and nothing changes.
     */
    method Arm(newId: string, k: K) returns (ok: bool)
      modifies this
      ensures ok <==> old(bindId).None?
      ensures ok ==> bindId == Some(newId) && resume == Some(k)
      ensures !ok ==> bindId == old(bindId) && resume == old(resume)
    {
      if bindId.None? {
        bindId := Some(newId);
        resume := Some(k);
        ok := true;
      } else {
        ok := false;
      }
    }

    /**
     * `callback`: the binding is removed first, then the stored resume is
     * called.  Called on an instance never armed, the unbind still happens
     * (with no funcid, which clears the whole sequence) and the missing
     * attribute then raises: `failed`.  The fields are left as they are,
     * so an instance that has fired can never be armed again.
     */
    method Callback() returns (actions: seq<Action<K>>, failed: bool)
      ensures |actions| >= 1 && actions[0] == Unbind(name, bindId)
      ensures resume.Some? ==> !failed && actions == [Unbind(name, bindId), CallResume(resume.value)]
      ensures resume.None? ==> failed && actions == [Unbind(name, bindId)]
    {
      actions := [Unbind(name, bindId)];
      if resume.Some? {
        actions := actions + [CallResume(resume.value)];
        failed := false;
      } else {
        failed := true;
      }
    }
  }

  /**
   * An instance armed once binds, fires, unbinds its own funcid and resumes
   * the body; arming it a second time, before or after the fire, fails and
   * leaves it bound to the first id.
   */
  method ArmFireRearm<K>(name: string, id: string, k: K, id2: string, k2: K)
    returns (first: bool, actions: seq<Action<K>>, second: bool)
    ensures first && !second
    ensures actions == [Unbind(name, Some(id)), CallResume(k)]
  {
    var e := new BindEvent<K>(name);
    first := e.Arm(id, k);
    var failed;
    actions, failed := e.Callback();
    second := e.Arm(id2, k2);
  }

  /**
   * `patch_unbind`'s state: the module global `_old_unbind` and the class
   * attribute `Misc.unbind`; `F` stands for the function objects.
   */
  class UnbindPatch<F> {
    var oldUnbind: Option<F>
    var miscUnbind: F
    /** `_new_unbind` */
    const newUnbind: F

    constructor(original: F, replacement: F)
      ensures oldUnbind.None? && miscUnbind == original && newUnbind == replacement
    {
      oldUnbind := None;
      miscUnbind := original;
      newUnbind := replacement;
    }

    /** Only while `_old_unbind` is None: remember `Misc.unbind`, then replace it. */
    method Patch()
      modifies this
      ensures old(oldUnbind).None? ==> oldUnbind == Some(old(miscUnbind)) && miscUnbind == newUnbind
      ensures old(oldUnbind).Some? ==> oldUnbind == old(oldUnbind) && miscUnbind == old(miscUnbind)
    {
      if oldUnbind.None? {
        oldUnbind := Some(miscUnbind);
        miscUnbind := newUnbind;
      }
    }
  }

  /** Calling `patch_unbind` a second time keeps the original unbind and the replacement installed by the first. */
  method PatchTwice<F>(original: F, replacement: F) returns (p: UnbindPatch<F>)
    ensures p.oldUnbind == Some(original) && p.miscUnbind == replacement
  {
    p := new UnbindPatch(original, replacement);
    p.Patch();
    p.Patch();
  }
}

/** A module-level `_model = None` global with its `get_model()` accessor:
    the first call that finds the slot empty loads the model and keeps it,
    every later call returns the kept model.  Loading may raise, in which
    case the slot stays empty and the exception reaches the caller. */
module ModelSlot {
  import opened Wrappers

  class Slot<M> {
    var model: Option<M>
    /** How many loads have succeeded. */
    ghost var loads: nat

    ghost predicate Valid()
      reads this
    {
      loads <= 1 && (model.Some? <==> loads == 1)
    }

    constructor ()
      ensures Valid() && model == None && loads == 0
    {
      model := None;
      loads := 0;
    }

    /** `get_model()`, where `load` is what loading the model would give. */
    method Get(load: Result<M>) returns (r: Result<M>)
      requires Valid()
      modifies this
      ensures Valid()
      ensures old(model).Some? ==> r == Success(old(model).value) && model == old(model) && loads == old(loads)
      ensures old(model).None? ==> r == load
      ensures old(model).None? && load.Success? ==> model == Some(load.value) && loads == 1
      ensures old(model).None? && load.Failure? ==> model == None && loads == 0
    {
      if model.None? {
        if load.Failure? {
          return load;
        }
        model := Some(load.value);
        loads := loads + 1;
      }
      r := Success(model.value);
    }
  }
}

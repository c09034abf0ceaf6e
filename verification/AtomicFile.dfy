/**
 Replacing a file as a whole: write a temporary file, sync it, rename it over the old one
 (kafkrs-server/src/pending_deletes.rs:71-104, kafkrs-server/src/topic_registry.rs:342-353).
 */
module AtomicFile {

  /** What a reader of a file finds: nothing, bytes that do not parse, or a whole value. */
  datatype Content<+T> = Missing | Torn | Whole(value: T)

  /** The step of a replacement that fails, if any. */
  datatype Fault = NoFault | CreateFails | WriteFails | SyncFails | RenameFails

  class ReplacedFile<T> {
    var target: Content<T>
    var tmp: Content<T>

    constructor ()
      ensures target == Missing && tmp == Missing
    {
      target, tmp := Missing, Missing;
    }

    /**
     Whichever step fails, and whatever it leaves in the temporary file, the target holds the old
     value or the new one, and the new one exactly when success is reported: it never becomes torn.
     */
    method Replace(next: T, fault: Fault) returns (ok: bool)
      modifies this
      ensures ok == fault.NoFault?
      ensures target == if ok then Whole(next) else old(target)
      ensures old(!target.Torn?) ==> !target.Torn?
    {
      if fault.CreateFails? { return false; }
      tmp := Torn;
      if fault.WriteFails? { return false; }
      tmp := Whole(next);
      if fault.SyncFails? || fault.RenameFails? { return false; }
      target, tmp := tmp, Missing;
      return true;
    }
  }
}

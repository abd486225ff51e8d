/**
 * src/io/file_obj.rs: the FILE_OBJECT wrapper and its two driver-owned
 * context slots, FsContext and FsContext2.
 */
module FileObj {
  import opened Wrappers

  /**
   * The two context slots of the kernel's FILE_OBJECT. A slot holds the
   * boxed value `set_context` stored, or None for a null pointer.
   */
  class FileObject<C, D> {
    var fsContext: Option<C>
    var fsContext2: Option<D>
  }

  /** `WduFileObject`: compared, like the derived PartialEq, by pointer. */
  datatype WduFileObject<C, D> = WduFileObject(fileObject: FileObject?<C, D>)
  {
    predicate IsValid()
    {
      fileObject != null
    }

    /** `context`, `context_as_ref` and `context_as_mut_ref`: FsContext, None when it is null. */
    function Context(): Option<C>
      requires IsValid()
      reads fileObject
    {
      fileObject.fsContext
    }

    /** `context2`, `context2_as_ref` and `context2_as_mut_ref`: FsContext2. */
    function Context2(): Option<D>
      requires IsValid()
      reads fileObject
    {
      fileObject.fsContext2
    }

    /** `set_context`: boxes the value into FsContext; FsContext2 is not touched. */
    method SetContext(context: C)
      requires IsValid()
      modifies fileObject
      ensures Context() == Some(context)
      ensures Context2() == old(Context2())
    {
      fileObject.fsContext := Some(context);
    }

    /** `set_context2`: boxes the value into FsContext2; FsContext is not touched. */
    method SetContext2(context: D)
      requires IsValid()
      modifies fileObject
      ensures Context2() == Some(context)
      ensures Context() == old(Context())
    {
      fileObject.fsContext2 := Some(context);
    }
  }

  /** `wrap`. */
  function WrapFileObject<C, D>(fo: FileObject?<C, D>): (w: WduFileObject<C, D>)
    ensures w.IsValid() <==> fo != null
    ensures w.fileObject == fo
  {
    WduFileObject(fo)
  }

  /** Two wrappers are equal exactly when they wrap the same FILE_OBJECT. */
  lemma FileObjectEqualityIsPointerEquality<C, D>(a: WduFileObject<C, D>, b: WduFileObject<C, D>)
    ensures a == b <==> a.fileObject == b.fileObject
  {
  }
}

/**
  * The storage factory: one storage provider per storage type, created on
  * first use and handed out again on every later call.
  */
module Storage {
  import opened Js

  /** The Supabase-backed provider; its operations are not part of this model. */
  class SupabaseStorage {
    constructor ()
    {
    }
  }

  /** `StorageType.SUPABASE`, the only storage type. */
  const Supabase: string := "supabase"

  /** The module-level `storageInstances` cache; its only slot is the Supabase one. */
  class StorageFactory {
    var supabase: SupabaseStorage?

    constructor ()
      ensures supabase == null
    {
      supabase := null;
    }

    /**
      * `getStorage(type = SUPABASE)`: a cached instance is returned as is; the
      * first Supabase request creates and caches one; any other type throws.
      */
    method GetStorage(storageType: Option<string>) returns (r: Result<SupabaseStorage>)
      modifies this
      ensures storageType.GetOr(Supabase) == Supabase && old(supabase) != null ==>
        r.Ok? && r.value == old(supabase) && supabase == old(supabase)
      ensures storageType.GetOr(Supabase) == Supabase && old(supabase) == null ==>
        r.Ok? && fresh(r.value) && supabase == r.value
      ensures storageType.GetOr(Supabase) != Supabase ==>
        r == Throw("Unknown storage type: " + storageType.GetOr(Supabase)) && supabase == old(supabase)
    {
      var t := storageType.GetOr(Supabase);
      if t == Supabase && supabase != null {
        return Ok(supabase);
      }
      if t == Supabase {
        supabase := new SupabaseStorage();
        return Ok(supabase);
      }
      return Throw("Unknown storage type: " + t);
    }

    /** Two successive requests for the same type give the same object. */
    method RepeatedRequestsShareInstance(storageType: Option<string>)
      returns (first: Result<SupabaseStorage>, second: Result<SupabaseStorage>)
      modifies this
      ensures first == second
    {
      first := GetStorage(storageType);
      second := GetStorage(storageType);
    }
  }
}

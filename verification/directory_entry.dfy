/** A guild directory entry compares by id: `==` and `!=` treat null
    explicitly, `Equals` accepts the same reference or an entry with the same
    id, and the hash code is the id's hash. */
module Directory {
  import opened Wrappers
  import opened Text

  /** What `Equals(object)` can be given: null, a directory entry, or any other object. */
  datatype EntryObject = NullObject | AnEntry(entry: DirectoryEntry) | OtherObject

  class DirectoryEntry {
    const id: Snowflake
    var description: string

    constructor (id: Snowflake, description: string)
      ensures this.id == id && this.description == description
    {
      this.id := id;
      this.description := description;
    }

    /** `Equals(DiscordGuildDirectoryEntry)`: not null, and the same
        reference or the same id. */
    function Equals(e: Option<DirectoryEntry>): (r: bool)
      ensures e.None? ==> !r
      ensures e == Some(this) ==> r
      ensures e.Some? ==> (r <==> e.value.id == id)
    {
      e.Some? && (e.value == this || id == e.value.id)
    }

    /** `Equals(object)`: an object that is not an entry is cast to null. */
    function EqualsObject(o: EntryObject): (r: bool)
      ensures !o.AnEntry? ==> !r
      ensures o.AnEntry? ==> (r <==> o.entry.id == id)
    {
      Equals(if o.AnEntry? then Some(o.entry) else None)
    }

    /** `GetHashCode`: the id's hash. */
    function HashCode(): (h: int)
      ensures IntMin <= h <= IntMax
    {
      UlongHash(id)
    }

    /** `operator ==`: both null, or both present with equal ids. */
    static function OpEq(e1: Option<DirectoryEntry>, e2: Option<DirectoryEntry>): (r: bool)
      ensures e1.None? && e2.None? ==> r
      ensures e1.None? != e2.None? ==> !r
      ensures e1.Some? && e2.Some? ==> (r <==> e1.value.id == e2.value.id)
    {
      (e1.Some? || e2.None?) && (e1.None? || e2.Some?) && ((e1.None? && e2.None?) || e1.value.id == e2.value.id)
    }

    /** `operator !=`. */
    static function OpNe(e1: Option<DirectoryEntry>, e2: Option<DirectoryEntry>): (r: bool)
      ensures r <==> (e1.None? != e2.None?) || (e1.Some? && e2.Some? && e1.value.id != e2.value.id)
    {
      !OpEq(e1, e2)
    }
  }

  /** `==` is an equivalence relation on entries and null. */
  lemma OpEqEquivalence(a: Option<DirectoryEntry>, b: Option<DirectoryEntry>, c: Option<DirectoryEntry>)
    ensures DirectoryEntry.OpEq(a, a)
    ensures DirectoryEntry.OpEq(a, b) == DirectoryEntry.OpEq(b, a)
    ensures DirectoryEntry.OpEq(a, b) && DirectoryEntry.OpEq(b, c) ==> DirectoryEntry.OpEq(a, c)
  {
  }

  /** `Equals` on an entry agrees with `==`, and equal entries have equal
      hash codes. */
  lemma EqualsAgreesWithOperator(x: DirectoryEntry, e: Option<DirectoryEntry>)
    ensures x.Equals(e) <==> DirectoryEntry.OpEq(Some(x), e)
    ensures x.Equals(e) ==> x.HashCode() == e.value.HashCode()
    ensures x.Equals(e) <==> x.EqualsObject(if e.Some? then AnEntry(e.value) else NullObject)
  {
  }
}

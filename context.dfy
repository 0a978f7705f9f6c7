/**
 * The per-author command lock of tango/core/context.py: one table, shared
 * by every command context, from author id to the context that locked the
 * author.
 */
module CommandLock {

  /** `Context.locked_authors`, the class-level dictionary all contexts share. */
  class LockTable {
    var lockedAuthors: map<int, Context>

    constructor ()
      ensures lockedAuthors == map[]
    {
      lockedAuthors := map[];
    }
  }

  /** A command invocation context: its author and the shared lock table. */
  class Context {
    const authorId: int
    const table: LockTable

    constructor (authorId: int, table: LockTable)
      ensures this.authorId == authorId && this.table == table
    {
      this.authorId := authorId;
      this.table := table;
    }

    /** `is_locked`: the author has an entry in the table. */
    predicate IsLocked()
      reads table
    {
      authorId in table.lockedAuthors
    }

    /** `lock`: this context becomes the author's entry, replacing any earlier one. */
    method Lock()
      modifies table
      ensures table.lockedAuthors == old(table.lockedAuthors)[authorId := this]
      ensures IsLocked()
      ensures forall a :: a != authorId ==>
        (a in table.lockedAuthors <==> a in old(table.lockedAuthors)) &&
        (a in table.lockedAuthors ==> table.lockedAuthors[a] == old(table.lockedAuthors)[a])
    {
      table.lockedAuthors := table.lockedAuthors[authorId := this];
    }

    /** `unlock`: the author's entry is dropped; dropping an absent entry is no error. */
    method Unlock()
      modifies table
      ensures table.lockedAuthors == old(table.lockedAuthors) - {authorId}
      ensures !IsLocked()
      ensures authorId !in old(table.lockedAuthors) ==> table.lockedAuthors == old(table.lockedAuthors)
      ensures forall a :: a != authorId ==>
        (a in table.lockedAuthors <==> a in old(table.lockedAuthors)) &&
        (a in table.lockedAuthors ==> table.lockedAuthors[a] == old(table.lockedAuthors)[a])
    {
      table.lockedAuthors := table.lockedAuthors - {authorId};
    }
  }

  /**
   * Two contexts of the same author see one table: a lock taken through the
   * first locks the author for the second, and a lock through the second
   * replaces the first as the stored context.
   */
  method SharedTable(author: int) returns (seenBySecond: bool, storedIsSecond: bool)
    ensures seenBySecond && storedIsSecond
  {
    var table := new LockTable();
    var first := new Context(author, table);
    var second := new Context(author, table);
    first.Lock();
    seenBySecond := second.IsLocked();
    second.Lock();
    storedIsSecond := author in table.lockedAuthors && table.lockedAuthors[author] == second;
  }
}

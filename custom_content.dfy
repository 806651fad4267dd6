/**
 * The custom-content store: a list of user-authored transcripts kept in
 * memory and mirrored, as a whole, into browser storage after every
 * create, update and delete. On start-up the list is read back from
 * storage; a missing or unreadable value leaves it empty.
 */
module CustomContent {
  import opened Wrappers
  import opened Text
  import opened Lists
  import opened TerminalData

  /** The storage value under the store's key, as the start-up read sees it. */
  datatype Stored =
    | Absent                                     // no value, or the empty string
    | Unreadable                                 // not JSON, or JSON that is not a list
    | Records(records: seq<CustomTerminalContent>)

  /** The fields an update may carry; `id` and `createdAt` are never among them. */
  datatype ContentUpdate = ContentUpdate(name: Option<string>, lines: Option<seq<TerminalLine>>)

  /** One entry of the selection list. */
  datatype ContentOption = ContentOption(id: string, name: string, linesCount: nat, createdAt: int)

  /** The list the start-up read produces. */
  function Loaded(stored: Stored): (r: seq<CustomTerminalContent>)
    ensures !stored.Records? ==> r == []
    ensures stored.Records? ==> r == stored.records
  {
    match stored
    case Records(records) => records
    case _ => []
  }

  /** `custom-<now>-<suffix>`, where the suffix stands for the random base-36 part. */
  function NewContentId(now: nat, suffix: string): string {
    "custom-" + Decimal(now) + "-" + suffix
  }

  /** `getCustomContent`: the first record with that id. */
  function Find(cs: seq<CustomTerminalContent>, id: string): (r: Option<CustomTerminalContent>)
    ensures r.None? <==> forall i :: 0 <= i < |cs| ==> cs[i].id != id
    ensures r.Some? ==> exists i :: 0 <= i < |cs| && cs[i] == r.value && cs[i].id == id
                                    && forall j :: 0 <= j < i ==> cs[j].id != id
  {
    if cs == [] then None
    else if cs[0].id == id then Some(cs[0])
    else
      var r := Find(cs[1..], id);
      assert r.Some? ==> exists i :: 1 <= i < |cs| && cs[i] == r.value && cs[i].id == id
                                     && forall j :: 0 <= j < i ==> cs[j].id != id by {
        if r.Some? {
          var k :| 0 <= k < |cs[1..]| && cs[1..][k] == r.value && cs[1..][k].id == id
                   && forall j :: 0 <= j < k ==> cs[1..][j].id != id;
          assert forall j :: 0 <= j < k + 1 ==> cs[j].id != id by {
            forall j | 0 <= j < k + 1
              ensures cs[j].id != id
            {
              if j > 0 {
                assert cs[j] == cs[1..][j - 1];
              }
            }
          }
        }
      }
      assert r.None? ==> forall i :: 0 <= i < |cs| ==> cs[i].id != id by {
        if r.None? {
          forall i | 0 <= i < |cs|
            ensures cs[i].id != id
          {
            if i > 0 {
              assert cs[i] == cs[1..][i - 1];
            }
          }
        }
      }
      r
  }

  /** `{ ...content, ...updates }`: the fields present in the update replace the record's. */
  function Apply(c: CustomTerminalContent, u: ContentUpdate): (r: CustomTerminalContent)
    ensures r.id == c.id && r.createdAt == c.createdAt
    ensures r.name == u.name.GetOr(c.name) && r.lines == u.lines.GetOr(c.lines)
  {
    c.(name := u.name.GetOr(c.name), lines := u.lines.GetOr(c.lines))
  }

  /** `updateCustomContent`: same length and order, only records with that id change, ids and creation times never. */
  function Updated(cs: seq<CustomTerminalContent>, id: string, u: ContentUpdate): (r: seq<CustomTerminalContent>)
    ensures |r| == |cs|
    ensures forall i :: 0 <= i < |cs| ==> r[i].id == cs[i].id && r[i].createdAt == cs[i].createdAt
    ensures forall i :: 0 <= i < |cs| && cs[i].id != id ==> r[i] == cs[i]
    ensures forall i :: 0 <= i < |cs| && cs[i].id == id ==> r[i] == Apply(cs[i], u)
  {
    seq(|cs|, i requires 0 <= i < |cs| => if cs[i].id == id then Apply(cs[i], u) else cs[i])
  }

  /** `deleteCustomContent`: every record with that id goes, the others stay. */
  function Deleted(cs: seq<CustomTerminalContent>, id: string): (r: seq<CustomTerminalContent>)
    ensures |r| <= |cs|
    ensures forall i :: 0 <= i < |r| ==> r[i].id != id && r[i] in cs
    ensures forall i :: 0 <= i < |cs| && cs[i].id != id ==> cs[i] in r
  {
    Filter(cs, (c: CustomTerminalContent) => c.id != id)
  }

  /** Deleting works element by element, so the survivors keep their order. */
  lemma DeletedConcat(a: seq<CustomTerminalContent>, b: seq<CustomTerminalContent>, id: string)
    ensures Deleted(a + b, id) == Deleted(a, id) + Deleted(b, id)
  {
    FilterConcat(a, b, (c: CustomTerminalContent) => c.id != id);
  }

  /** Deleting an id nobody has changes nothing. */
  lemma DeleteAbsent(cs: seq<CustomTerminalContent>, id: string)
    requires forall i :: 0 <= i < |cs| ==> cs[i].id != id
    ensures Deleted(cs, id) == cs
  {
    FilterAll(cs, (c: CustomTerminalContent) => c.id != id);
  }

  /** `getCustomContentOptions`: one entry per record, in order, with the record's line count. */
  function Options(cs: seq<CustomTerminalContent>): (r: seq<ContentOption>)
    ensures |r| == |cs|
    ensures forall i :: 0 <= i < |cs| ==>
      r[i].id == cs[i].id && r[i].name == cs[i].name && r[i].linesCount == |cs[i].lines| && r[i].createdAt == cs[i].createdAt
  {
    seq(|cs|, i requires 0 <= i < |cs| => ContentOption(cs[i].id, cs[i].name, |cs[i].lines|, cs[i].createdAt))
  }

  /** Every listed option can be fetched by its id; with distinct ids it fetches that very record. */
  lemma OptionsAreFetchable(cs: seq<CustomTerminalContent>, i: nat)
    requires i < |cs|
    ensures Find(cs, Options(cs)[i].id).Some?
    ensures (forall j, k :: 0 <= j < k < |cs| ==> cs[j].id != cs[k].id) ==> Find(cs, Options(cs)[i].id) == Some(cs[i])
  {
  }

  /** After a create, the new record is found by its id, provided no earlier record had it; other lookups are unchanged. */
  lemma {:induction false} FindAfterCreate(cs: seq<CustomTerminalContent>, c: CustomTerminalContent, id: string)
    ensures id != c.id ==> Find(cs + [c], id) == Find(cs, id)
    ensures (forall i :: 0 <= i < |cs| ==> cs[i].id != c.id) ==> Find(cs + [c], c.id) == Some(c)
    decreases |cs|
  {
    if cs != [] {
      assert (cs + [c])[1..] == cs[1..] + [c];
      FindAfterCreate(cs[1..], c, id);
    }
  }

  /** After an update, a lookup of that id finds the updated record, and lookups of other ids are unchanged. */
  lemma {:induction false} FindAfterUpdate(cs: seq<CustomTerminalContent>, id: string, u: ContentUpdate, other: string)
    ensures Find(Updated(cs, id, u), id) == (match Find(cs, id) case Some(c) => Some(Apply(c, u)) case None => None)
    ensures other != id ==> Find(Updated(cs, id, u), other) == Find(cs, other)
    decreases |cs|
  {
    if cs != [] {
      assert Updated(cs, id, u)[1..] == Updated(cs[1..], id, u);
      FindAfterUpdate(cs[1..], id, u, other);
    }
  }

  /** After a delete, the id is gone and lookups of other ids are unchanged. */
  lemma {:induction false} FindAfterDelete(cs: seq<CustomTerminalContent>, id: string, other: string)
    ensures Find(Deleted(cs, id), id).None?
    ensures other != id ==> Find(Deleted(cs, id), other) == Find(cs, other)
    decreases |cs|
  {
    if cs != [] {
      FindAfterDelete(cs[1..], id, other);
      DeletedConcat([cs[0]], cs[1..], id);
      assert [cs[0]] + cs[1..] == cs;
      if cs[0].id == id {
        assert Deleted([cs[0]], id) == [];
        assert Deleted(cs, id) == Deleted(cs[1..], id);
      } else {
        assert Deleted([cs[0]], id) == [cs[0]];
        assert Deleted(cs, id) == [cs[0]] + Deleted(cs[1..], id);
        assert ([cs[0]] + Deleted(cs[1..], id))[1..] == Deleted(cs[1..], id);
      }
    }
  }

  /** The eleven lines of the transcript `createDefaultContent` adds to an empty store. */
  const DefaultLines: seq<TerminalLine> := [
    TerminalLine("user@localhost:~$ ", Some("command"), None, None, Some(0)),
    TerminalLine("echo 'Welcome to my custom terminal!'", Some("primary"), None, None, Some(100)),
    TerminalLine("Welcome to my custom terminal!", Some("success"), None, None, Some(200)),
    TerminalLine("user@localhost:~$ ", Some("command"), None, None, Some(300)),
    TerminalLine("ls -la", Some("primary"), None, None, Some(100)),
    TerminalLine("total 8", Some("muted"), None, None, Some(200)),
    TerminalLine("drwxr-xr-x  3 user user 4096 Jan 15 10:30 .", Some("info"), None, None, Some(100)),
    TerminalLine("drwxr-xr-x  5 user user 4096 Jan 15 10:25 ..", Some("info"), None, None, Some(100)),
    TerminalLine("-rw-r--r--  1 user user  220 Jan 15 10:30 .bashrc", Some("primary"), None, None, Some(100)),
    TerminalLine("-rw-r--r--  1 user user  807 Jan 15 10:30 .profile", Some("primary"), None, None, Some(100)),
    TerminalLine("user@localhost:~$ ", Some("command"), None, None, Some(300))
  ]

  const DefaultName := "Default Custom Terminal"

  /**
   * The hook's state: the in-memory list, the value in browser storage and
   * the loading flag. The clock and the random id suffix are parameters.
   */
  class ContentStore {
    var contents: seq<CustomTerminalContent>
    var persisted: Stored
    var isLoading: bool

    /** Mounting: an empty list, loading, whatever storage already holds. */
    constructor (stored: Stored)
      ensures contents == [] && persisted == stored && isLoading
    {
      contents := [];
      persisted := stored;
      isLoading := true;
    }

    /** The mount effect: read storage back; on anything but a readable list the contents stay empty. */
    method Load()
      modifies this
      ensures contents == Loaded(old(persisted))
      ensures persisted == old(persisted) && !isLoading
    {
      contents := Loaded(persisted);
      isLoading := false;
    }

    /** `createCustomContent`: append exactly one record, persist, and return it. */
    method Create(name: string, lines: seq<TerminalLine>, now: nat, suffix: string) returns (c: CustomTerminalContent)
      modifies this
      ensures c == CustomTerminalContent(NewContentId(now, suffix), name, lines, now)
      ensures contents == old(contents) + [c]
      ensures persisted == Records(contents)
      ensures Loaded(persisted) == contents
      ensures isLoading == old(isLoading)
    {
      c := CustomTerminalContent(NewContentId(now, suffix), name, lines, now);
      contents := contents + [c];
      persisted := Records(contents);
    }

    /** `updateCustomContent`. */
    method Update(id: string, u: ContentUpdate)
      modifies this
      ensures contents == Updated(old(contents), id, u)
      ensures persisted == Records(contents)
      ensures Loaded(persisted) == contents
      ensures isLoading == old(isLoading)
    {
      contents := Updated(contents, id, u);
      persisted := Records(contents);
    }

    /** `deleteCustomContent`. */
    method Delete(id: string)
      modifies this
      ensures contents == Deleted(old(contents), id)
      ensures persisted == Records(contents)
      ensures Loaded(persisted) == contents
      ensures isLoading == old(isLoading)
    {
      contents := Deleted(contents, id);
      persisted := Records(contents);
    }

    /** `createDefaultContent`: on an empty store create the default transcript; otherwise hand back the first record and change nothing. */
    method CreateDefault(now: nat, suffix: string) returns (c: CustomTerminalContent)
      modifies this
      ensures old(contents) == [] ==>
        && c == CustomTerminalContent(NewContentId(now, suffix), DefaultName, DefaultLines, now)
        && contents == [c]
        && persisted == Records(contents)
        && Loaded(persisted) == contents
      ensures old(contents) != [] ==>
        c == old(contents)[0] && contents == old(contents) && persisted == old(persisted)
      ensures isLoading == old(isLoading)
    {
      if contents == [] {
        c := Create(DefaultName, DefaultLines, now, suffix);
      } else {
        c := contents[0];
      }
    }
  }
}

// The DockerIgnore class and the dockerignore decorator of
// build/build_docker_images.py: a build step runs with components/.dockerignore
// truncated and rewritten from a header and its own directives, and the file
// is copied back from a snapshot however the step ends.

module Ignore {
  import opened Strings
  import opened Docker

  /** What a scoped build step writes after the header. */
  datatype Directive =
    | IgnoreAll              // ignore_all(): "**"
    | Include(entry: string) // include(entry): "!entry"
    | IgnoreDefaults         // ignore_defaults(): the snapshot, under its own heading

  /** The lines DockerIgnore's constructor writes. */
  const HeaderEntries: seq<string> := ["", "### Ephemeral modifications ###", "# Specific instructions"]

  /** The entries one directive writes, given the snapshot of the file. */
  function DirectiveEntries(original: string, d: Directive): seq<string>
  {
    match d
    case IgnoreAll => ["**"]
    case Include(entry) => ["!" + entry]
    case IgnoreDefaults => ["", "### Original content ###", original]
  }

  /** The entries written in a scope: the header, then each directive's entries in order. */
  function Entries(original: string, ds: seq<Directive>): seq<string>
    decreases |ds|
  {
    if ds == [] then HeaderEntries
    else Entries(original, ds[..|ds| - 1]) + DirectiveEntries(original, ds[|ds| - 1])
  }

  /** DockerIgnore.write of each entry in turn: the entry followed by "\n". */
  function Terminated(entries: seq<string>): string
    decreases |entries|
  {
    if entries == [] then "" else Terminated(entries[..|entries| - 1]) + entries[|entries| - 1] + "\n"
  }

  /** The content of components/.dockerignore while a scoped step runs its docker build. */
  function ScopedFile(original: string, ds: seq<Directive>): string
  {
    Terminated(Entries(original, ds))
  }

  lemma TerminatedAppend(entries: seq<string>, e: string)
    ensures Terminated(entries + [e]) == Terminated(entries) + e + "\n"
  {
    assert (entries + [e])[..|entries|] == entries;
  }

  lemma EntriesAppend(original: string, ds: seq<Directive>, d: Directive)
    ensures Entries(original, ds + [d]) == Entries(original, ds) + DirectiveEntries(original, d)
  {
    assert (ds + [d])[..|ds|] == ds;
  }

  /** The lines of the entries: an entry that itself holds newlines contributes several. */
  function Lines(entries: seq<string>): seq<string>
    decreases |entries|
  {
    if entries == [] then [] else Lines(entries[..|entries| - 1]) + Split(entries[|entries| - 1], '\n')
  }

  lemma {:induction false} TerminatedThenText(entries: seq<string>, tail: string)
    ensures Split(Terminated(entries) + tail, '\n') == Lines(entries) + Split(tail, '\n')
    decreases |entries|
  {
    if entries == [] {
      assert Terminated(entries) + tail == tail;
    } else {
      var init, last := entries[..|entries| - 1], entries[|entries| - 1];
      TerminatedThenText(init, last);
      assert Terminated(entries) + tail == (Terminated(init) + last) + ['\n'] + tail;
      SplitAppend(Terminated(init) + last, tail, '\n');
    }
  }

  /** Read back line by line, the written file gives the entries' lines and a final empty string. */
  lemma TerminatedLines(entries: seq<string>)
    ensures Split(Terminated(entries), '\n') == Lines(entries) + [""]
  {
    TerminatedThenText(entries, "");
    assert Terminated(entries) + "" == Terminated(entries);
  }

  /** Entries free of newlines come back one line each. */
  lemma {:induction false} SingleLineEntries(entries: seq<string>)
    requires forall i :: 0 <= i < |entries| ==> '\n' !in entries[i]
    ensures Lines(entries) == entries
    decreases |entries|
  {
    if entries != [] {
      SplitNoSep(entries[|entries| - 1], '\n');
      SingleLineEntries(entries[..|entries| - 1]);
    }
  }

  predicate KeepsDefaults(ds: seq<Directive>)
  {
    exists i :: 0 <= i < |ds| && ds[i] == IgnoreDefaults
  }

  /** Opening in "w" mode drops the old content: without ignore_defaults the scope does not depend on it. */
  lemma ScopeForgetsOldContent(o1: string, o2: string, ds: seq<Directive>)
    requires !KeepsDefaults(ds)
    ensures ScopedFile(o1, ds) == ScopedFile(o2, ds)
  {
    EntriesIgnoreOriginal(o1, o2, ds);
  }

  lemma {:induction false} EntriesIgnoreOriginal(o1: string, o2: string, ds: seq<Directive>)
    requires !KeepsDefaults(ds)
    ensures Entries(o1, ds) == Entries(o2, ds)
    decreases |ds|
  {
    if ds != [] {
      var init := ds[..|ds| - 1];
      assert !KeepsDefaults(init) by {
        forall i | 0 <= i < |init| ensures init[i] != IgnoreDefaults {
          assert init[i] == ds[i];
        }
      }
      EntriesIgnoreOriginal(o1, o2, init);
      assert ds[|ds| - 1] != IgnoreDefaults;
    }
  }

  /** DockerIgnore: writes entries to the already opened components/.dockerignore. */
  class DockerIgnore {
    const host: Host
    const originalContent: string
    /** What the file held when the object was created. */
    ghost const before: string
    /** Every entry written so far, in order. */
    ghost var entries: seq<string>
    /** The directives written after the header, which the entries are a function of. */
    ghost var written: seq<Directive>

    /** The file holds what it held before, then the header and exactly the directives written so far. */
    ghost predicate Valid()
      reads this`entries, this`written, host`dockerignore
    {
      && host.dockerignore == before + Terminated(entries)
      && entries == Entries(originalContent, written)
    }

    /** Reads the snapshot and writes the header. */
    constructor(host: Host, originalContent: string)
      modifies host`dockerignore
      ensures this.host == host && this.originalContent == originalContent && before == old(host.dockerignore)
      ensures written == [] && Valid()
    {
      this.host := host;
      this.originalContent := originalContent;
      before := host.dockerignore;
      entries := [];
      written := [];
      new;
      assert host.dockerignore == before + Terminated(entries);
      Write("");
      Write("### Ephemeral modifications ###");
      Write("# Specific instructions");
      assert entries == HeaderEntries;
    }

    /** write: the entry and a newline are appended to the file. */
    method Write(entry: string)
      requires host.dockerignore == before + Terminated(entries)
      modifies host`dockerignore, this`entries
      ensures host.dockerignore == old(host.dockerignore) + entry + "\n"
      ensures entries == old(entries) + [entry] && host.dockerignore == before + Terminated(entries)
    {
      host.dockerignore := host.dockerignore + entry + "\n";
      TerminatedAppend(entries, entry);
      entries := entries + [entry];
    }

    method Ignore(entry: string)
      requires host.dockerignore == before + Terminated(entries)
      modifies host`dockerignore, this`entries
      ensures host.dockerignore == old(host.dockerignore) + entry + "\n"
      ensures entries == old(entries) + [entry] && host.dockerignore == before + Terminated(entries)
    {
      Write(entry);
    }

    method IgnoreAll()
      requires Valid()
      modifies host`dockerignore, this`entries, this`written
      ensures written == old(written) + [Directive.IgnoreAll] && Valid()
    {
      Ignore("**");
      EntriesAppend(originalContent, written, Directive.IgnoreAll);
      written := written + [Directive.IgnoreAll];
    }

    method Include(entry: string)
      requires Valid()
      modifies host`dockerignore, this`entries, this`written
      ensures written == old(written) + [Directive.Include(entry)] && Valid()
    {
      Write("!" + entry);
      EntriesAppend(originalContent, written, Directive.Include(entry));
      written := written + [Directive.Include(entry)];
    }

    method IgnoreDefaults()
      requires Valid()
      modifies host`dockerignore, this`entries, this`written
      ensures written == old(written) + [Directive.IgnoreDefaults] && Valid()
    {
      ghost var e0 := entries;
      Write("");
      Write("### Original content ###");
      Write(originalContent);
      assert entries == e0 + DirectiveEntries(originalContent, Directive.IgnoreDefaults);
      EntriesAppend(originalContent, written, Directive.IgnoreDefaults);
      written := written + [Directive.IgnoreDefaults];
    }
  }

  /** Entering the decorator's scope: snapshot the file, truncate it ("w" mode), write the header. */
  method OpenScope(host: Host) returns (ignoreFile: DockerIgnore, snapshot: string)
    modifies host`dockerignore
    ensures snapshot == old(host.dockerignore)
    ensures fresh(ignoreFile) && ignoreFile.host == host && ignoreFile.originalContent == snapshot
    ensures ignoreFile.before == "" && ignoreFile.written == [] && ignoreFile.Valid()
  {
    snapshot := host.dockerignore;
    host.dockerignore := "";
    ignoreFile := new DockerIgnore(host, snapshot);
  }

  /** Leaving the decorator's scope (the finally clause): copy the snapshot back. */
  method CloseScope(host: Host, snapshot: string)
    modifies host`dockerignore
    ensures host.dockerignore == snapshot
  {
    host.dockerignore := snapshot;
  }
}

/** The registry of tools: registration, lookup, and the sorted listing that discovery starts from. */
module ToolRegistry {
  import opened Text
  import opened ToolPolicy
  import opened Wrappers

  // handler says that the definition has one.
  datatype Definition = Definition(descriptor: Descriptor, skills: seq<string>, handler: bool)

  type Tools = map<string, map<string, Definition>>

  datatype Filter = Filter(names: seq<string>, levels: seq<Level>, skill: string)

  // Every definition is valid and filed under its own name and version.
  predicate Filed(tools: Tools) {
    forall name, version | name in tools && version in tools[name] ::
      var d := tools[name][version];
      d.descriptor.name == name && d.descriptor.version == version && ValidDescriptor(d.descriptor) && d.handler
  }

  function Lookup(tools: Tools, name: string, version: string): Option<Definition> {
    if name in tools && version in tools[name] then Some(tools[name][version]) else None
  }

  function Resolved(tools: Tools, name: string, version: string): Option<Definition> {
    Lookup(tools, Trim(name), Trim(version))
  }

  predicate Listed(tools: Tools, d: Definition) {
    Lookup(tools, d.descriptor.name, d.descriptor.version) == Some(d)
  }

  predicate Passes(f: Filter, d: Definition) {
    && (f.names == [] || exists n | n in f.names :: Trim(n) == d.descriptor.name)
    && (f.levels == [] || d.descriptor.level in f.levels)
    && (f.skill == "" || f.skill in d.skills)
  }

  // By name, then by version.
  predicate Before(a: Definition, b: Definition) {
    if a.descriptor.name == b.descriptor.name then Less(a.descriptor.version, b.descriptor.version)
    else Less(a.descriptor.name, b.descriptor.name)
  }

  ghost predicate Ascending(s: seq<Definition>) {
    forall i, j | 0 <= i < j < |s| :: Before(s[i], s[j])
  }

  lemma BeforeIsTransitive(a: Definition, b: Definition, c: Definition)
    requires Before(a, b) && Before(b, c)
    ensures Before(a, c)
  {
    if a.descriptor.name == b.descriptor.name == c.descriptor.name {
      LessTransitive(a.descriptor.version, b.descriptor.version, c.descriptor.version);
    } else if a.descriptor.name != b.descriptor.name && b.descriptor.name != c.descriptor.name {
      LessTransitive(a.descriptor.name, b.descriptor.name, c.descriptor.name);
      if a.descriptor.name == c.descriptor.name {
        LessIrreflexive(a.descriptor.name);
      }
    }
  }

  lemma BeforeIsTotal(a: Definition, b: Definition)
    requires a.descriptor.name != b.descriptor.name || a.descriptor.version != b.descriptor.version
    ensures Before(a, b) || Before(b, a)
  {
    if a.descriptor.name == b.descriptor.name {
      LessTotal(a.descriptor.version, b.descriptor.version);
    } else {
      LessTotal(a.descriptor.name, b.descriptor.name);
    }
  }

  // Sorting by insertion; the definitions have distinct names and versions.
  function Insert(s: seq<Definition>, d: Definition): seq<Definition> {
    if s == [] || Before(d, s[0]) then [d] + s else [s[0]] + Insert(s[1..], d)
  }

  lemma {:induction false} InsertContents(s: seq<Definition>, d: Definition)
    ensures multiset(Insert(s, d)) == multiset(s) + multiset{d}
  {
    if s == [] || Before(d, s[0]) {
    } else {
      InsertContents(s[1..], d);
      assert s == [s[0]] + s[1..];
    }
  }

  lemma InsertMembers(s: seq<Definition>, d: Definition)
    ensures forall e :: e in Insert(s, d) <==> e in s || e == d
  {
    InsertContents(s, d);
    forall e ensures e in Insert(s, d) <==> e in s || e == d {
      assert e in Insert(s, d) <==> e in multiset(Insert(s, d));
      assert e in s <==> e in multiset(s);
    }
  }

  lemma {:induction false} InsertSorts(s: seq<Definition>, d: Definition)
    requires Ascending(s)
    requires forall e :: e in s ==> e.descriptor.name != d.descriptor.name || e.descriptor.version != d.descriptor.version
    ensures Ascending(Insert(s, d))
  {
    if s == [] {
    } else if Before(d, s[0]) {
      forall j | 1 <= j < |s| ensures Before(d, s[j]) {
        BeforeIsTransitive(d, s[0], s[j]);
      }
    } else {
      assert s[0] in s;
      BeforeIsTotal(s[0], d);
      InsertSorts(s[1..], d);
      var rest := Insert(s[1..], d);
      InsertContents(s[1..], d);
      forall j | 0 <= j < |rest| ensures Before(s[0], rest[j]) {
        assert rest[j] in multiset(rest);
        if rest[j] != d {
          assert rest[j] in s[1..];
        }
      }
    }
  }

  class Registry {
    var tools: Tools

    constructor ()
      ensures tools == map[]
    {
      tools := map[];
    }

    /** Registers a valid definition with a handler under a name and version that are free. */
    method Register(d: Definition) returns (ok: bool)
      modifies this
      ensures ok <==> ValidDescriptor(d.descriptor) && d.handler
                      && !(d.descriptor.name in old(tools) && d.descriptor.version in old(tools)[d.descriptor.name])
      ensures !ok ==> tools == old(tools)
      ensures ok ==> forall name, version ::
                Lookup(tools, name, version) ==
                  (if name == d.descriptor.name && version == d.descriptor.version then Some(d) else Lookup(old(tools), name, version))
      ensures Filed(old(tools)) ==> Filed(tools)
    {
      if !ValidDescriptor(d.descriptor) || !d.handler {
        return false;
      }
      var name, version := d.descriptor.name, d.descriptor.version;
      var versions := if name in tools then tools[name] else map[];
      if version in versions {
        return false;
      }
      tools := tools[name := versions[version := d]];
      ok := true;
    }

    method Resolve(name: string, version: string) returns (d: Option<Definition>)
      ensures d == Resolved(tools, name, version)
      ensures d == if Trim(name) in tools && Trim(version) in tools[Trim(name)] then Some(tools[Trim(name)][Trim(version)]) else None
    {
      var n, v := Trim(name), Trim(version);
      if n !in tools {
        return None;
      }
      var versions := tools[n];
      d := if v in versions then Some(versions[v]) else None;
    }

    /** The versions of one name that pass the filter, added to what was collected. */
    method Collect(f: Filter, name: string, start: seq<Definition>) returns (found: seq<Definition>)
      requires Filed(tools) && name in tools && Ascending(start)
      requires forall d :: d in start ==> d.descriptor.name != name
      ensures Ascending(found)
      ensures forall d :: d in found <==> d in start || (Listed(tools, d) && d.descriptor.name == name && Passes(f, d))
    {
      hide Passes, Before, Insert, ValidDescriptor;
      found := start;
      var left := tools[name].Keys;
      while left != {}
        invariant left <= tools[name].Keys && Ascending(found)
        invariant forall d :: d in found <==>
          d in start || (Listed(tools, d) && d.descriptor.name == name && d.descriptor.version !in left && Passes(f, d))
        decreases left
      {
        var version :| version in left;
        left := left - {version};
        var d := tools[name][version];
        if Passes(f, d) {
          InsertSorts(found, d);
          InsertMembers(found, d);
          found := Insert(found, d);
        }
      }
    }

    /** The listing is exactly the definitions that pass the filter, in strictly ascending order, so it does not
        depend on the order in which the maps are walked. */
    method Definitions(f: Filter) returns (found: seq<Definition>)
      requires Filed(tools)
      ensures Ascending(found)
      ensures forall d :: d in found <==> Listed(tools, d) && Passes(f, d)
      ensures forall i, j :: 0 <= i < j < |found| ==>
                var a, b := found[i].descriptor, found[j].descriptor;
                Less(a.name, b.name) || (a.name == b.name && Less(a.version, b.version))
      ensures forall d :: d in found <==>
                && d.descriptor.name in tools && d.descriptor.version in tools[d.descriptor.name]
                && tools[d.descriptor.name][d.descriptor.version] == d
                && (f.names != [] ==> exists n :: n in f.names && Trim(n) == d.descriptor.name)
                && (f.levels != [] ==> d.descriptor.level in f.levels)
                && (f.skill != "" ==> f.skill in d.skills)
    {
      found := [];
      var left := tools.Keys;
      while left != {}
        invariant left <= tools.Keys && Ascending(found)
        invariant forall d :: d in found <==> Listed(tools, d) && d.descriptor.name !in left && Passes(f, d)
        decreases left
      {
        var name :| name in left;
        left := left - {name};
        found := Collect(f, name, found);
      }
    }
  }

  /** Strictly ascending listings with the same members are the same listing. */
  lemma {:induction false} ListingIsUnique(a: seq<Definition>, b: seq<Definition>)
    requires Ascending(a) && Ascending(b) && forall d :: d in a <==> d in b
    ensures a == b
  {
    if a == [] {
      HasMember(b);
    } else if b == [] {
      HasMember(a);
    } else {
      FirstAgrees(a, b);
      RestAgrees(a, b);
      ListingIsUnique(a[1..], b[1..]);
      assert a == [a[0]] + a[1..] && b == [b[0]] + b[1..];
    }
  }

  lemma HasMember(s: seq<Definition>)
    ensures s != [] ==> exists d :: d in s
  {
    if s != [] {
      assert s[0] in s;
    }
  }

  lemma NotBeforeItself(a: Definition, b: Definition)
    ensures !(Before(a, b) && Before(b, a))
  {
    if Before(a, b) && Before(b, a) {
      BeforeIsTransitive(a, b, a);
      LessIrreflexive(a.descriptor.version);
    }
  }

  lemma FirstAgrees(a: seq<Definition>, b: seq<Definition>)
    requires Ascending(a) && Ascending(b) && a != [] && b != [] && forall d :: d in a <==> d in b
    ensures a[0] == b[0]
  {
    assert a[0] in b && b[0] in a;
    var i :| 0 <= i < |b| && b[i] == a[0];
    var j :| 0 <= j < |a| && a[j] == b[0];
    if i > 0 && j > 0 {
      NotBeforeItself(a[0], b[0]);
    }
  }

  lemma RestAgrees(a: seq<Definition>, b: seq<Definition>)
    requires Ascending(a) && Ascending(b) && a != [] && b != [] && a[0] == b[0] && forall d :: d in a <==> d in b
    ensures Ascending(a[1..]) && Ascending(b[1..]) && forall d :: d in a[1..] <==> d in b[1..]
  {
    HeadOccursOnce(a);
    HeadOccursOnce(b);
    assert a == [a[0]] + a[1..] && b == [b[0]] + b[1..];
    forall d | d in a[1..] ensures d in b[1..] {
      assert d in a && d != a[0];
    }
    forall d | d in b[1..] ensures d in a[1..] {
      assert d in b && d != b[0];
    }
  }

  lemma HeadOccursOnce(a: seq<Definition>)
    requires Ascending(a) && a != []
    ensures a[0] !in a[1..]
  {
    if a[0] in a[1..] {
      var j :| 1 <= j < |a| && a[j] == a[0];
      NotBeforeItself(a[0], a[j]);
    }
  }

  /** A filed tool is found under its own name and version exactly when both are trimmed. */
  lemma ResolvableIffTrimmed(tools: Tools, d: Definition)
    requires Filed(tools) && Listed(tools, d)
    ensures Resolved(tools, d.descriptor.name, d.descriptor.version) == Some(d) <==>
      Trimmed(d.descriptor.name) && Trimmed(d.descriptor.version)
  {
  }
}

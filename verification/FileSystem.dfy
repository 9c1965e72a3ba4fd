/** The little of a file system that cache/cache.go relies on: names, inodes
    that outlive their names, and whole-name operations that are atomic. */
module FileSystem {
  import opened Basics

  type Name = string
  type Ino = nat
  type Bytes = seq<bv8>

  datatype Inode = Inode(data: Bytes, mtime: int)

  /** A directory and every inode ever made in it. */
  datatype Disk = Disk(names: map<Name, Ino>, inodes: seq<Inode>)
  {
    predicate Holds(name: Name) { name in names && names[name] < |inodes| }

    /** os.CreateTemp, or os.OpenFile with O_CREATE on a name that is free. */
    function Create(name: Name, data: Bytes, now: int): Disk {
      Disk(names[name := |inodes|], inodes + [Inode(data, now)])
    }

    /** A write through an open handle. */
    function Append(ino: Ino, chunk: Bytes, now: int): Disk
      requires ino < |inodes|
    {
      this.(inodes := inodes[ino := Inode(inodes[ino].data + chunk, now)])
    }

    /** os.WriteFile: truncates and rewrites the inode the name has, or makes one. */
    function WriteFile(name: Name, data: Bytes, now: int): Disk {
      if Holds(name) then this.(inodes := inodes[names[name] := Inode(data, now)])
      else Create(name, data, now)
    }

    function Rename(from: Name, to: Name): Disk
      requires from in names
    {
      this.(names := (names - {from})[to := names[from]])
    }

    function Remove(name: Name): Disk { this.(names := names - {name}) }

    /** os.ReadFile */
    function ReadFile(name: Name): Option<Bytes> {
      if Holds(name) then Some(inodes[names[name]].data) else None
    }

    /** os.Open: the handle is the inode. */
    function Open(name: Name): Option<Ino> { if Holds(name) then Some(names[name]) else None }

    function Chtimes(name: Name, now: int): Disk {
      if Holds(name) then this.(inodes := inodes[names[name] := inodes[names[name]].(mtime := now)]) else this
    }
  }

  // ----- how the cache names its files -----

  const TYPE_SUFFIX: string := ".type"
  const TEMP_PREFIX: string := ".tmp-"

  predicate HasPrefix(s: string, prefix: string) { prefix <= s }

  predicate HasSuffix(s: string, suffix: string) { |suffix| <= |s| && s[|s| - |suffix|..] == suffix }

  function TypeName(key: string): Name { key + TYPE_SUFFIX }

  /** os.CreateTemp(dir, ".tmp-"+key+"-*") with the given random part. */
  function TempName(key: string, random: string): Name { TEMP_PREFIX + key + "-" + random }

  predicate IsTemp(name: Name) { HasPrefix(name, TEMP_PREFIX) }

  predicate IsType(name: Name) { HasSuffix(name, TYPE_SUFFIX) }

  /** A key whose main file cannot be mistaken for a sidecar or a temporary file. */
  predicate ProperKey(key: string) { !IsTemp(key) && !IsType(key) }

  /** immich.ValidID */
  predicate ValidId(id: string) {
    0 < |id| <= 64 &&
    forall i | 0 <= i < |id| :: 'a' <= id[i] <= 'z' || 'A' <= id[i] <= 'Z' || '0' <= id[i] <= '9' || id[i] == '-'
  }

  lemma TypeHasDot(s: string)
    ensures IsType(s) ==> s[|s| - 5] == '.'
  {
    if IsType(s) {
      assert s[|s| - 5..][0] == s[|s| - 5];
    }
  }

  lemma TempStarts(s: string)
    ensures IsTemp(s) <==> |s| >= 5 && s[0] == '.' && s[1] == 't' && s[2] == 'm' && s[3] == 'p' && s[4] == '-'
  {}

  lemma NoDotIsProper(prefix: string, id: string)
    requires ValidId(id) && '.' !in prefix
    ensures ProperKey(prefix + id)
  {
    TypeHasDot(prefix + id);
    TempStarts(prefix + id);
  }

  /** The keys the server uses, made from IDs as Immich hands them out, are proper. */
  lemma ServerKeysProper(id: string)
    requires ValidId(id)
    ensures ProperKey(id) && ProperKey("person:" + id) && ProperKey("thumb:" + id)
  {
    NoDotIsProper("", id);
    assert "" + id == id;
    NoDotIsProper("person:", id);
    NoDotIsProper("thumb:", id);
  }

  /** And no two kinds of them collide: an asset's own bytes, a face, a thumbnail. */
  lemma ServerKeysApart(id: string, other: string)
    requires ValidId(id) && ValidId(other)
    ensures id != "person:" + other && id != "thumb:" + other && "person:" + id != "thumb:" + other
    ensures ("person:" + id == "person:" + other || "thumb:" + id == "thumb:" + other) ==> id == other
  {
    assert ("person:" + other)[6] == ':' && ("thumb:" + other)[5] == ':';
    assert ("person:" + id)[0] == 'p' && ("thumb:" + other)[0] == 't';
    assert ("person:" + id)[7..] == id && ("person:" + other)[7..] == other;
    assert ("thumb:" + id)[6..] == id && ("thumb:" + other)[6..] == other;
  }

  predicate AllDecimal(s: string) { forall i | 0 <= i < |s| :: '0' <= s[i] <= '9' }

  /** os.CreateTemp puts digits where the pattern has its star, so a temporary file never looks like a sidecar. */
  lemma TempIsNoType(key: string, random: string)
    requires AllDecimal(random)
    ensures !IsType(TempName(key, random))
  {
    var name := TempName(key, random);
    TypeEndsInE(name);
    assert name[|name| - 1] == if random == "" then '-' else random[|random| - 1];
  }

  lemma TypeEndsInE(s: string)
    ensures IsType(s) ==> s[|s| - 1] == 'e'
  {
    if IsType(s) {
      assert s[|s| - 5..][4] == s[|s| - 1];
    }
  }

  /** The three kinds of names never collide, and sidecars and temporary files tell their keys apart. */
  lemma NamesApart(key: string, other: string, random: string)
    requires ProperKey(key) && ProperKey(other)
    ensures key != TypeName(other) && key != TempName(other, random) && TypeName(key) != TempName(other, random)
    ensures TypeName(key) == TypeName(other) ==> key == other
    ensures !IsTemp(TypeName(key)) && IsTemp(TempName(other, random))
  {
    assert TypeName(other)[|other|..] == TYPE_SUFFIX;
    assert TypeName(key)[..|key|] == key && TypeName(other)[..|other|] == other;
    TempStarts(key);
    TempStarts(TypeName(key));
    TempStarts(TempName(other, random));
    if |key| >= 5 {
      assert forall i | 0 <= i < 5 :: TypeName(key)[i] == key[i];
    } else {
      assert TypeName(key)[|key|] == '.' && TypeName(key)[|key| + 1] == 't' && TypeName(key)[|key| + 2] == 'y';
    }
  }
}

/** Every interleaving of the disk cache's Get, Put and evict, one file-system
    operation at a time. */
module DiskCacheRuns {
  import opened Basics
  import opened FileSystem

  datatype PutPC =
    | Creating
    | Copying
    | WritingType
    | Renaming
    | Opening
    | RemovingTemp(result: Option<Ino>)  // the deferred os.Remove(tmpName)
    | Returned(result: Option<Ino>)

  /** One call of Put: what its reader yields, the temporary file it made, how much it has copied. */
  datatype Putter = Putter(
    key: string,
    mime: Bytes,
    content: Bytes,
    pc: PutPC,
    temp: Name,
    ino: Option<Ino>,
    copied: nat,
    renamed: bool)

  datatype GetPC =
    | ReadingType
    | OpeningMain(mime: Bytes)
    | TouchingMain(mime: Bytes, ino: Ino)
    | TouchingType(mime: Bytes, ino: Ino)
    | Hit(mime: Bytes, ino: Ino)
    | Miss

  datatype Getter = Getter(key: string, pc: GetPC)

  /** Who wrote an inode last: a Put its main file, or a Put the sidecar of its key. History only. */
  datatype Writer = MainOf(p: nat) | TypeOf(p: nat)

  datatype State = State(disk: Disk, writers: seq<Writer>, now: int, puts: seq<Putter>, gets: seq<Getter>)

  datatype Action =
    | Tick(elapsed: nat)
    | CallPut(key: string, mime: Bytes, content: Bytes)
    | CallGet(key: string)
    | CreateTemp(p: nat, random: string)
    | Copy(p: nat, n: nat)
    | EndCopy(p: nat)
    | WriteType(p: nat)
    | Rename(p: nat)
    | OpenMain(p: nat)
    | Fail(p: nat)         // any of the above fails instead
    | RemoveTemp(p: nat)
    | GetStep(g: nat)
    | Evict(name: Name)    // one os.Remove of an eviction sweep

  /** os.CreateTemp picks a name that is free and that no unfinished Put still holds. */
  predicate TempFree(s: State, name: Name) {
    name !in s.disk.names &&
    forall p | 0 <= p < |s.puts| && s.puts[p].ino.Some? && !s.puts[p].pc.Returned? :: s.puts[p].temp != name
  }

  predicate Enabled(s: State, a: Action) {
    match a
    case Tick(_) => true
    case CallPut(key, _, _) => ProperKey(key)
    case CallGet(_) => true
    case CreateTemp(p, random) =>
      p < |s.puts| && s.puts[p].pc.Creating? && AllDecimal(random) && TempFree(s, TempName(s.puts[p].key, random))
    case Copy(p, n) =>
      && p < |s.puts| && s.puts[p].pc.Copying? && s.puts[p].copied + n <= |s.puts[p].content|
      && s.puts[p].ino.Some? && s.puts[p].ino.value < |s.disk.inodes|
    case EndCopy(p) => p < |s.puts| && s.puts[p].pc.Copying? && s.puts[p].copied == |s.puts[p].content|
    case WriteType(p) => p < |s.puts| && s.puts[p].pc.WritingType?
    case Rename(p) => p < |s.puts| && s.puts[p].pc.Renaming? && s.puts[p].temp in s.disk.names
    case OpenMain(p) => p < |s.puts| && s.puts[p].pc.Opening?
    case Fail(p) => p < |s.puts| && !s.puts[p].pc.RemovingTemp? && !s.puts[p].pc.Returned?
    case RemoveTemp(p) => p < |s.puts| && s.puts[p].pc.RemovingTemp?
    case GetStep(g) => g < |s.gets| && !s.gets[g].pc.Hit? && !s.gets[g].pc.Miss?
    case Evict(name) => !IsTemp(name)
  }

  function SetPut(s: State, p: nat, q: Putter, disk: Disk): State
    requires p < |s.puts|
  {
    s.(disk := disk, puts := s.puts[p := q])
  }

  function GetOf(disk: Disk, g: Getter, now: int): (Disk, Getter) {
    match g.pc
    case ReadingType =>
      var mime := disk.ReadFile(TypeName(g.key));
      (disk, g.(pc := if mime.Some? then OpeningMain(mime.value) else Miss))
    case OpeningMain(mime) =>
      var ino := disk.Open(g.key);
      (disk, g.(pc := if ino.Some? then TouchingMain(mime, ino.value) else Miss))
    case TouchingMain(mime, ino) => (disk.Chtimes(g.key, now), g.(pc := TouchingType(mime, ino)))
    case TouchingType(mime, ino) => (disk.Chtimes(TypeName(g.key), now), g.(pc := Hit(mime, ino)))
    case _ => (disk, g)
  }

  function Apply(s: State, a: Action): State
    requires Enabled(s, a)
  {
    match a
    case Tick(d) => s.(now := s.now + d)
    case CallPut(key, mime, content) => s.(puts := s.puts + [Putter(key, mime, content, Creating, "", None, 0, false)])
    case CallGet(key) => s.(gets := s.gets + [Getter(key, ReadingType)])
    case CreateTemp(p, random) =>
      var q := s.puts[p];
      var name := TempName(q.key, random);
      SetPut(s, p, q.(pc := Copying, temp := name, ino := Some(|s.disk.inodes|)), s.disk.Create(name, [], s.now))
        .(writers := s.writers + [MainOf(p)])
    case Copy(p, n) =>
      var q := s.puts[p];
      var chunk := q.content[q.copied..q.copied + n];
      SetPut(s, p, q.(copied := q.copied + n), s.disk.Append(q.ino.value, chunk, s.now))
    case EndCopy(p) => SetPut(s, p, s.puts[p].(pc := WritingType), s.disk)
    case WriteType(p) =>
      var q := s.puts[p];
      var name := TypeName(q.key);
      var s' := SetPut(s, p, q.(pc := Renaming), s.disk.WriteFile(name, q.mime, s.now));
      if s.disk.Holds(name) && s.disk.names[name] < |s.writers|
      then s'.(writers := s.writers[s.disk.names[name] := TypeOf(p)])
      else s'.(writers := s.writers + [TypeOf(p)])
    case Rename(p) =>
      var q := s.puts[p];
      SetPut(s, p, q.(pc := Opening, renamed := true), s.disk.Rename(q.temp, q.key))
    case OpenMain(p) =>
      var q := s.puts[p];
      SetPut(s, p, q.(pc := RemovingTemp(s.disk.Open(q.key))), s.disk)
    case Fail(p) =>
      var q := s.puts[p];
      SetPut(s, p, q.(pc := if q.pc.Creating? then Returned(None) else RemovingTemp(None)), s.disk)
    case RemoveTemp(p) =>
      var q := s.puts[p];
      SetPut(s, p, q.(pc := Returned(q.pc.result)), s.disk.Remove(q.temp))
    case GetStep(g) =>
      var (disk, getter) := GetOf(s.disk, s.gets[g], s.now);
      s.(disk := disk, gets := s.gets[g := getter])
    case Evict(name) => s.(disk := s.disk.Remove(name))
  }

  predicate Init(s: State) { s.disk == Disk(map[], []) && s.writers == [] && s.puts == [] && s.gets == [] }

  ghost predicate Run(states: seq<State>, actions: seq<Action>) {
    |states| == |actions| + 1 && Init(states[0]) &&
    forall i | 0 <= i < |actions| :: Enabled(states[i], actions[i]) && states[i + 1] == Apply(states[i], actions[i])
  }

  // ----- the invariant -----

  predicate HoldsTemp(q: Putter) { q.pc.Copying? || q.pc.WritingType? || q.pc.Renaming? }

  /** A Put's own file: still under its temporary name with what was copied so far, or complete and renamed. */
  predicate PutOk(s: State, p: nat, q: Putter) {
    && ProperKey(q.key)
    && (q.pc.Creating? ==> q.ino.None? && q.copied == 0)
    && (HoldsTemp(q) || q.renamed || q.pc.RemovingTemp? ==> q.ino.Some? && IsTemp(q.temp))
    && (q.ino.Some? ==> q.ino.value < |s.writers| && s.writers[q.ino.value] == MainOf(p))
    && (HoldsTemp(q) ==> !q.renamed && q.temp in s.disk.names && s.disk.names[q.temp] == q.ino.value)
    && (HoldsTemp(q) && !q.pc.Copying? ==> q.copied == |q.content|)
    && q.copied <= |q.content|
    && (HoldsTemp(q) || q.renamed ==>
          q.ino.value < |s.disk.inodes| && s.disk.inodes[q.ino.value].data == q.content[..q.copied])
    && (q.renamed || q.pc.Opening? ==> q.renamed && q.copied == |q.content|)
  }

  /** Unfinished Puts hold different temporary names. */
  predicate TempsApart(s: State) {
    forall p, p' | 0 <= p < p' < |s.puts| ::
      s.puts[p].ino.Some? && s.puts[p'].ino.Some? && !s.puts[p].pc.Returned? && !s.puts[p'].pc.Returned? ==>
        s.puts[p].temp != s.puts[p'].temp
  }

  predicate WholeFile(s: State, key: string, ino: Ino) {
    && ino < |s.writers| && s.writers[ino].MainOf? && s.writers[ino].p < |s.puts|
    && var q := s.puts[s.writers[ino].p];
       q.key == key && q.renamed && q.ino == Some(ino)
  }

  predicate SidecarOf(s: State, name: Name, ino: Ino) {
    && ino < |s.writers| && s.writers[ino].TypeOf? && s.writers[ino].p < |s.puts|
    && TypeName(s.puts[s.writers[ino].p].key) == name
  }

  predicate NameOk(s: State, name: Name)
    requires name in s.disk.names
  {
    var ino := s.disk.names[name];
    && ino < |s.disk.inodes|
    && !(IsTemp(name) && IsType(name))
    && (!IsTemp(name) && !IsType(name) ==> WholeFile(s, name, ino))
    && (!IsTemp(name) && IsType(name) ==> SidecarOf(s, name, ino))
  }

  predicate WriterOk(s: State, ino: Ino)
    requires ino < |s.writers| && ino < |s.disk.inodes|
  {
    s.writers[ino].p < |s.puts| &&
    (s.writers[ino].TypeOf? ==> s.disk.inodes[ino].data == s.puts[s.writers[ino].p].mime)
  }

  ghost predicate MimeGiven(s: State, key: string, mime: Bytes) {
    exists p :: 0 <= p < |s.puts| && s.puts[p].key == key && s.puts[p].mime == mime
  }

  ghost predicate GetOk(s: State, g: Getter) {
    match g.pc
    case ReadingType => true
    case OpeningMain(mime) => ProperKey(g.key) && MimeGiven(s, g.key, mime)
    case Miss => true
    case TouchingMain(mime, ino) => MimeGiven(s, g.key, mime) && WholeFile(s, g.key, ino)
    case TouchingType(mime, ino) => MimeGiven(s, g.key, mime) && WholeFile(s, g.key, ino)
    case Hit(mime, ino) => MimeGiven(s, g.key, mime) && WholeFile(s, g.key, ino)
  }

  ghost predicate Inv(s: State) {
    && |s.writers| == |s.disk.inodes|
    && (forall p | 0 <= p < |s.puts| :: PutOk(s, p, s.puts[p]))
    && TempsApart(s)
    && (forall name | name in s.disk.names :: NameOk(s, name))
    && (forall ino | 0 <= ino < |s.writers| :: WriterOk(s, ino))
    && (forall g | 0 <= g < |s.gets| :: GetOk(s, s.gets[g]))
  }

  lemma InitInv(s: State)
    requires Init(s)
    ensures Inv(s)
  {}

  // ----- every action keeps it -----

  /** What was written, by whom, is still so: Puts and the files they completed are never forgotten. */
  predicate Remembers(s: State, s': State) {
    && |s.puts| <= |s'.puts| && |s.writers| <= |s'.writers|
    && (forall p | 0 <= p < |s.puts| ::
          s'.puts[p].key == s.puts[p].key && s'.puts[p].mime == s.puts[p].mime &&
          s'.puts[p].content == s.puts[p].content &&
          (s.puts[p].renamed ==> s'.puts[p].renamed && s'.puts[p].ino == s.puts[p].ino))
    && (forall i | 0 <= i < |s.writers| && s.writers[i].MainOf? :: s'.writers[i] == s.writers[i])
  }

  lemma GetStays(s: State, s': State, g: Getter)
    requires GetOk(s, g) && Remembers(s, s')
    ensures GetOk(s', g)
  {
    if !g.pc.ReadingType? && !g.pc.Miss? {
      var p :| 0 <= p < |s.puts| && s.puts[p].key == g.key && s.puts[p].mime == g.pc.mime;
      assert s'.puts[p].key == g.key && s'.puts[p].mime == g.pc.mime;
    }
  }

  lemma GettersStay(s: State, s': State)
    requires Inv(s) && Remembers(s, s') && s'.gets == s.gets
    ensures forall g | 0 <= g < |s'.gets| :: GetOk(s', s'.gets[g])
  {
    forall g | 0 <= g < |s'.gets|
      ensures GetOk(s', s'.gets[g])
    {
      GetStays(s, s', s.gets[g]);
    }
  }

  /** Nothing but new Puts or Gets. */
  lemma CallKeepsInv(s: State, a: Action)
    requires Inv(s) && Enabled(s, a) && (a.Tick? || a.CallPut? || a.CallGet?)
    ensures Inv(Apply(s, a))
  {
    var s' := Apply(s, a);
    forall p | 0 <= p < |s'.puts|
      ensures PutOk(s', p, s'.puts[p])
    {
      if p < |s.puts| {
        assert PutOk(s, p, s.puts[p]);
      }
    }
    forall name | name in s'.disk.names
      ensures NameOk(s', name)
    {
      assert NameOk(s, name);
    }
    forall ino | 0 <= ino < |s'.writers|
      ensures WriterOk(s', ino)
    {
      assert WriterOk(s, ino);
    }
    forall g | 0 <= g < |s'.gets|
      ensures GetOk(s', s'.gets[g])
    {
      if g < |s.gets| {
        GetStays(s, s', s.gets[g]);
      }
    }
  }

  lemma CreateKeepsInv(s: State, p: nat, random: string)
    requires Inv(s) && Enabled(s, CreateTemp(p, random))
    ensures Inv(Apply(s, CreateTemp(p, random)))
  {
    var s' := Apply(s, CreateTemp(p, random));
    assert PutOk(s, p, s.puts[p]);
    NamesApart(s.puts[p].key, s.puts[p].key, random);
    TempIsNoType(s.puts[p].key, random);
    forall i | 0 <= i < |s'.puts|
      ensures PutOk(s', i, s'.puts[i])
    {
      assert PutOk(s, i, s.puts[i]);
    }
    forall name | name in s'.disk.names
      ensures NameOk(s', name)
    {
      assert name in s.disk.names ==> NameOk(s, name);
    }
    forall ino | 0 <= ino < |s'.writers|
      ensures WriterOk(s', ino)
    {
      assert ino < |s.writers| ==> WriterOk(s, ino);
    }
    GettersStay(s, s');
  }

  lemma CopyKeepsOwn(s: State, p: nat, n: nat)
    requires Enabled(s, Copy(p, n)) && PutOk(s, p, s.puts[p])
    ensures var s' := Apply(s, Copy(p, n)); PutOk(s', p, s'.puts[p])
  {
    var q := s.puts[p];
    assert q.content[..q.copied] + q.content[q.copied..q.copied + n] == q.content[..q.copied + n];
  }

  lemma CopyKeepsOther(s: State, p: nat, n: nat, i: nat)
    requires Enabled(s, Copy(p, n)) && i < |s.puts| && i != p && PutOk(s, p, s.puts[p]) && PutOk(s, i, s.puts[i])
    ensures var s' := Apply(s, Copy(p, n)); PutOk(s', i, s'.puts[i])
  {}

  lemma CopyKeepsInv(s: State, p: nat, n: nat)
    requires Inv(s) && Enabled(s, Copy(p, n))
    ensures Inv(Apply(s, Copy(p, n)))
  {
    var s' := Apply(s, Copy(p, n));
    var q := s.puts[p];
    assert PutOk(s, p, q);
    forall i | 0 <= i < |s'.puts|
      ensures PutOk(s', i, s'.puts[i])
    {
      if i == p {
        CopyKeepsOwn(s, p, n);
      } else {
        CopyKeepsOther(s, p, n, i);
      }
    }
    forall name | name in s'.disk.names
      ensures NameOk(s', name)
    {
      assert NameOk(s, name);
    }
    forall ino | 0 <= ino < |s'.writers|
      ensures WriterOk(s', ino)
    {
      assert WriterOk(s, ino);
    }
    GettersStay(s, s');
  }

  /** The sidecar's name is no temporary one, and stands for nobody's main file. */
  predicate SidecarApart(s: State, name: Name) {
    !IsTemp(name) && IsType(name) && |s.writers| == |s.disk.inodes| &&
    (name in s.disk.names ==> s.disk.names[name] < |s.writers| && s.writers[s.disk.names[name]].TypeOf?)
  }

  lemma SidecarIsApart(s: State, p: nat)
    requires Inv(s) && p < |s.puts|
    ensures SidecarApart(s, TypeName(s.puts[p].key))
  {
    var name := TypeName(s.puts[p].key);
    assert PutOk(s, p, s.puts[p]);
    NamesApart(s.puts[p].key, s.puts[p].key, "");
    assert name in s.disk.names ==> NameOk(s, name);
  }

  lemma WriteTypeKeepsOther(s: State, p: nat, i: nat)
    requires Enabled(s, WriteType(p)) && i < |s.puts| && i != p
    requires PutOk(s, i, s.puts[i]) && SidecarApart(s, TypeName(s.puts[p].key))
    ensures var s' := Apply(s, WriteType(p)); PutOk(s', i, s'.puts[i])
  {}

  lemma WriteTypeKeepsOwn(s: State, p: nat)
    requires Enabled(s, WriteType(p)) && PutOk(s, p, s.puts[p]) && SidecarApart(s, TypeName(s.puts[p].key))
    ensures var s' := Apply(s, WriteType(p)); PutOk(s', p, s'.puts[p])
  {}

  lemma WriteTypeKeepsWriter(s: State, p: nat, ino: Ino)
    requires Enabled(s, WriteType(p)) && SidecarApart(s, TypeName(s.puts[p].key))
    requires ino < |s.writers| ==> WriterOk(s, ino)
    ensures var s' := Apply(s, WriteType(p));
      |s'.writers| == |s'.disk.inodes| && (ino < |s'.writers| ==> WriterOk(s', ino))
  {}

  lemma WriteTypeKeepsName(s: State, p: nat, name: Name)
    requires Inv(s) && Enabled(s, WriteType(p)) && name in Apply(s, WriteType(p)).disk.names
    ensures NameOk(Apply(s, WriteType(p)), name)
  {
    SidecarIsApart(s, p);
    assert name in s.disk.names ==> NameOk(s, name);
  }

  lemma WriteTypeLeavesRest(s: State, p: nat)
    requires Enabled(s, WriteType(p)) && TempsApart(s) && SidecarApart(s, TypeName(s.puts[p].key))
    ensures var s' := Apply(s, WriteType(p));
      Remembers(s, s') && s'.gets == s.gets && |s'.puts| == |s.puts| && TempsApart(s')
  {}

  lemma WriteTypeKeepsInv(s: State, p: nat)
    requires Inv(s) && Enabled(s, WriteType(p))
    ensures Inv(Apply(s, WriteType(p)))
  {
    var s' := Apply(s, WriteType(p));
    SidecarIsApart(s, p);
    WriteTypeLeavesRest(s, p);
    forall i | 0 <= i < |s'.puts|
      ensures PutOk(s', i, s'.puts[i])
    {
      assert PutOk(s, i, s.puts[i]);
      if i == p {
        WriteTypeKeepsOwn(s, p);
      } else {
        WriteTypeKeepsOther(s, p, i);
      }
    }
    forall n | n in s'.disk.names
      ensures NameOk(s', n)
    {
      WriteTypeKeepsName(s, p, n);
    }
    forall ino | 0 <= ino < |s'.writers|
      ensures WriterOk(s', ino)
    {
      WriteTypeKeepsWriter(s, p, ino);
    }
    GettersStay(s, s');
  }

  lemma RenameKeepsInv(s: State, p: nat)
    requires Inv(s) && Enabled(s, Rename(p))
    ensures Inv(Apply(s, Rename(p)))
  {
    var s' := Apply(s, Rename(p));
    var q := s.puts[p];
    assert PutOk(s, p, q);
    forall i | 0 <= i < |s'.puts|
      ensures PutOk(s', i, s'.puts[i])
    {
      assert PutOk(s, i, s.puts[i]);
    }
    forall name | name in s'.disk.names
      ensures NameOk(s', name)
    {
      assert name in s.disk.names ==> NameOk(s, name);
    }
    forall ino | 0 <= ino < |s'.writers|
      ensures WriterOk(s', ino)
    {
      assert WriterOk(s, ino);
    }
    GettersStay(s, s');
  }

  lemma EvictKeepsInv(s: State, name: Name)
    requires Inv(s) && Enabled(s, Evict(name))
    ensures Inv(Apply(s, Evict(name)))
  {
    var s' := Apply(s, Evict(name));
    forall i | 0 <= i < |s'.puts|
      ensures PutOk(s', i, s'.puts[i])
    {
      assert PutOk(s, i, s.puts[i]);
    }
    forall n | n in s'.disk.names
      ensures NameOk(s', n)
    {
      assert NameOk(s, n);
    }
    forall ino | 0 <= ino < |s'.writers|
      ensures WriterOk(s', ino)
    {
      assert WriterOk(s, ino);
    }
    GettersStay(s, s');
  }

  lemma MoveKeepsPut(s: State, a: Action, i: nat)
    requires Inv(s) && Enabled(s, a) && (a.EndCopy? || a.OpenMain? || a.Fail? || a.RemoveTemp?) && i < |s.puts|
    ensures PutOk(Apply(s, a), i, Apply(s, a).puts[i])
  {
    assert PutOk(s, a.p, s.puts[a.p]) && PutOk(s, i, s.puts[i]);
  }

  /** It takes no name away but, at the very end, a temporary one. */
  lemma MoveLeavesRest(s: State, a: Action)
    requires Inv(s) && Enabled(s, a) && (a.EndCopy? || a.OpenMain? || a.Fail? || a.RemoveTemp?)
    ensures var s' := Apply(s, a);
      && Remembers(s, s') && s'.disk.inodes == s.disk.inodes && s'.writers == s.writers && s'.gets == s.gets
      && (forall name | name in s'.disk.names :: name in s.disk.names && s'.disk.names[name] == s.disk.names[name])
      && |s'.puts| == |s.puts| && TempsApart(s')
  {
    assert PutOk(s, a.p, s.puts[a.p]);
  }

  /** Actions that only move a Put on, or take its temporary name away. */
  lemma MoveKeepsInv(s: State, a: Action)
    requires Inv(s) && Enabled(s, a) && (a.EndCopy? || a.OpenMain? || a.Fail? || a.RemoveTemp?)
    ensures Inv(Apply(s, a))
  {
    var s' := Apply(s, a);
    MoveLeavesRest(s, a);
    forall i | 0 <= i < |s'.puts|
      ensures PutOk(s', i, s'.puts[i])
    {
      MoveKeepsPut(s, a, i);
    }
    forall name | name in s'.disk.names
      ensures NameOk(s', name)
    {
      assert NameOk(s, name);
    }
    forall ino | 0 <= ino < |s'.writers|
      ensures WriterOk(s', ino)
    {
      assert WriterOk(s, ino);
    }
    GettersStay(s, s');
  }

  /** A Get changes nothing but timestamps, and finds only whole files. */
  lemma GetStepKeepsInv(s: State, g: nat)
    requires Inv(s) && Enabled(s, GetStep(g))
    ensures Inv(Apply(s, GetStep(g)))
  {
    var s' := Apply(s, GetStep(g));
    var getter := s.gets[g];
    assert GetOk(s, getter);
    assert |s'.disk.inodes| == |s.disk.inodes| && s'.disk.names == s.disk.names;
    assert forall i | 0 <= i < |s.disk.inodes| :: s'.disk.inodes[i].data == s.disk.inodes[i].data;
    forall i | 0 <= i < |s'.puts|
      ensures PutOk(s', i, s'.puts[i])
    {
      assert PutOk(s, i, s.puts[i]);
    }
    forall name | name in s'.disk.names
      ensures NameOk(s', name)
    {
      assert NameOk(s, name);
    }
    forall ino | 0 <= ino < |s'.writers|
      ensures WriterOk(s', ino)
    {
      assert WriterOk(s, ino);
    }
    forall i | 0 <= i < |s'.gets|
      ensures GetOk(s', s'.gets[i])
    {
      GetStays(s, s', s.gets[i]);
      if i == g {
        GetFinds(s, getter);
        GetStays(s, s', s'.gets[g]);
      }
    }
  }

  lemma SameType(key: string, other: string)
    requires TypeName(key) == TypeName(other)
    ensures key == other
  {
    assert key == TypeName(key)[..|key|] && other == TypeName(other)[..|other|];
  }

  /** A Get of a key that a main file cannot have, as an unchecked URL may name it, is a miss. */
  lemma ImproperGetMisses(s: State, g: nat)
    requires Inv(s) && g < |s.gets| && s.gets[g].pc.ReadingType? && !ProperKey(s.gets[g].key)
    ensures Enabled(s, GetStep(g)) && Apply(s, GetStep(g)).gets[g].pc.Miss?
  {
    GetFinds(s, s.gets[g]);
  }

  lemma GetFinds(s: State, g: Getter)
    requires Inv(s) && GetOk(s, g)
    ensures GetOk(s, GetOf(s.disk, g, s.now).1)
  {
    var name := if g.pc.ReadingType? then TypeName(g.key) else g.key;
    assert IsType(TypeName(g.key));
    if name in s.disk.names {
      assert NameOk(s, name);
      var ino := s.disk.names[name];
      if g.pc.ReadingType? {
        assert WriterOk(s, ino);
        var p := s.writers[ino].p;
        assert PutOk(s, p, s.puts[p]);
        SameType(s.puts[p].key, g.key);
        assert s.puts[p].key == g.key && s.puts[p].mime == s.disk.inodes[ino].data;
      }
    }
  }

  lemma ApplyKeepsInv(s: State, a: Action)
    requires Inv(s) && Enabled(s, a)
    ensures Inv(Apply(s, a))
  {
    match a
    case CreateTemp(p, random) => CreateKeepsInv(s, p, random);
    case Copy(p, n) => CopyKeepsInv(s, p, n);
    case WriteType(p) => WriteTypeKeepsInv(s, p);
    case Rename(p) => RenameKeepsInv(s, p);
    case GetStep(g) => GetStepKeepsInv(s, g);
    case Tick(_) => CallKeepsInv(s, a);
    case CallPut(_, _, _) => CallKeepsInv(s, a);
    case CallGet(_) => CallKeepsInv(s, a);
    case Evict(name) => EvictKeepsInv(s, name);
    case _ => MoveKeepsInv(s, a);
  }

  lemma {:induction false} RunKeepsInv(states: seq<State>, actions: seq<Action>, i: nat)
    requires Run(states, actions) && i < |states|
    ensures Inv(states[i])
  {
    if i > 0 {
      RunKeepsInv(states, actions, i - 1);
      ApplyKeepsInv(states[i - 1], actions[i - 1]);
    }
  }

  // ----- what it gives -----

  /** A hit hands out the complete bytes of exactly one Put of that key, and a
      MIME type that a Put of that key gave. */
  lemma HitIsWhole(s: State, g: nat)
    requires Inv(s) && g < |s.gets| && s.gets[g].pc.Hit?
    ensures var key, ino := s.gets[g].key, s.gets[g].pc.ino;
      && ino < |s.disk.inodes|
      && (exists p :: 0 <= p < |s.puts| && s.puts[p].key == key && s.puts[p].ino == Some(ino) &&
                      s.disk.inodes[ino].data == s.puts[p].content)
      && (forall p, p' | 0 <= p < |s.puts| && 0 <= p' < |s.puts| ::
            s.puts[p].ino == Some(ino) && s.puts[p'].ino == Some(ino) ==> p == p')
      && MimeGiven(s, key, s.gets[g].pc.mime)
  {
    assert GetOk(s, s.gets[g]);
    var p := s.writers[s.gets[g].pc.ino].p;
    assert PutOk(s, p, s.puts[p]);
    assert s.puts[p].content[..s.puts[p].copied] == s.puts[p].content;
    forall p, p' | 0 <= p < |s.puts| && 0 <= p' < |s.puts|
      ensures s.puts[p].ino.Some? && s.puts[p'].ino == s.puts[p].ino ==> p == p'
    {
      assert PutOk(s, p, s.puts[p]) && PutOk(s, p', s.puts[p']);
    }
  }

  /** No main file is ever torn: whatever key a name stands for, its bytes are a whole Put's. */
  lemma MainFilesWhole(s: State, key: string)
    requires Inv(s) && ProperKey(key) && key in s.disk.names
    ensures s.disk.Holds(key) && exists p ::
      0 <= p < |s.puts| && s.puts[p].key == key && s.disk.ReadFile(key) == Some(s.puts[p].content)
  {
    assert NameOk(s, key);
    var p := s.writers[s.disk.names[key]].p;
    assert PutOk(s, p, s.puts[p]);
    assert s.puts[p].content[..s.puts[p].copied] == s.puts[p].content;
  }

  /** What a successful Put returns is open on a whole file of its key. */
  lemma PutReturnsWhole(s: State, p: nat)
    requires Inv(s) && Enabled(s, OpenMain(p))
    ensures var result := Apply(s, OpenMain(p)).puts[p].pc.result;
      result.Some? ==> result == s.disk.Open(s.puts[p].key) && WholeFile(s, s.puts[p].key, result.value)
  {
    assert PutOk(s, p, s.puts[p]);
    assert s.puts[p].key in s.disk.names ==> NameOk(s, s.puts[p].key);
  }

  lemma WholeFileIsThere(s: State, key: string, ino: Ino)
    requires Inv(s) && WholeFile(s, key, ino)
    ensures ino < |s.disk.inodes|
  {
    assert PutOk(s, s.writers[ino].p, s.puts[s.writers[ino].p]);
  }

  lemma RunKeepsFile(states: seq<State>, actions: seq<Action>, i: nat, key: string, ino: Ino)
    requires Run(states, actions) && i < |states| && WholeFile(states[i], key, ino)
    ensures ino < |states[i].disk.inodes|
    ensures i < |actions| ==>
      WholeFile(states[i + 1], key, ino) && ino < |states[i + 1].disk.inodes| &&
      states[i + 1].disk.inodes[ino].data == states[i].disk.inodes[ino].data
  {
    RunKeepsInv(states, actions, i);
    WholeFileIsThere(states[i], key, ino);
    if i < |actions| {
      WholeFileStays(states[i], actions[i], key, ino);
    }
  }

  /** A handle on a completed file keeps yielding the same bytes, whatever else
      happens, evictions and later Puts of the same key included. */
  lemma {:induction false} HandlesOutliveEviction(
    states: seq<State>, actions: seq<Action>, i: nat, j: nat, key: string, ino: Ino)
    requires Run(states, actions) && i <= j < |states| && WholeFile(states[i], key, ino)
    ensures WholeFile(states[j], key, ino) && ino < |states[i].disk.inodes| && ino < |states[j].disk.inodes|
    ensures states[j].disk.inodes[ino].data == states[i].disk.inodes[ino].data
  {
    if i == j {
      RunKeepsFile(states, actions, i, key, ino);
    } else {
      HandlesOutliveEviction(states, actions, i, j - 1, key, ino);
      RunKeepsFile(states, actions, j - 1, key, ino);
    }
  }

  lemma WholeFileStays(s: State, a: Action, key: string, ino: Ino)
    requires Inv(s) && Enabled(s, a) && WholeFile(s, key, ino)
    ensures WholeFile(Apply(s, a), key, ino) && ino < |Apply(s, a).disk.inodes|
    ensures Apply(s, a).disk.inodes[ino].data == s.disk.inodes[ino].data
  {
    var p := s.writers[ino].p;
    assert PutOk(s, p, s.puts[p]);
    if a.Copy? {
      assert PutOk(s, a.p, s.puts[a.p]);
    } else if a.WriteType? {
      SidecarIsApart(s, a.p);
    }
  }

  /** Nothing a sweep may remove is what a running Put is about to rename. */
  lemma EvictLeavesRenames(s: State, name: Name, p: nat)
    requires Inv(s) && Enabled(s, Evict(name)) && Enabled(s, Rename(p))
    ensures Enabled(Apply(s, Evict(name)), Rename(p))
  {
    assert PutOk(s, p, s.puts[p]);
  }
}

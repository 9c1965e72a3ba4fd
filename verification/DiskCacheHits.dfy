/** Which Puts a cache hit's bytes and MIME type come from. */
module DiskCacheHits {
  import opened Basics
  import opened FileSystem
  import opened DiskCacheRuns
  import DiskCache

  /** Action a writes the sidecar of key. */
  predicate Types(s: State, a: Action, key: string) { a.WriteType? && a.p < |s.puts| && s.puts[a.p].key == key }

  /** Action a puts a whole file under key. */
  predicate Renames(s: State, a: Action, key: string) { a.Rename? && a.p < |s.puts| && s.puts[a.p].key == key }

  /** The Put whose type is the last that the first i actions wrote for key. */
  ghost function LastTyped(states: seq<State>, actions: seq<Action>, i: nat, key: string): Option<nat>
    requires |states| == |actions| + 1 && i <= |actions|
  {
    if i == 0 then None
    else if Types(states[i - 1], actions[i - 1], key) then Some(actions[i - 1].p)
    else LastTyped(states, actions, i - 1, key)
  }

  /** The Put whose file is the last that the first i actions renamed to key. */
  ghost function LastRenamed(states: seq<State>, actions: seq<Action>, i: nat, key: string): Option<nat>
    requires |states| == |actions| + 1 && i <= |actions|
  {
    if i == 0 then None
    else if Renames(states[i - 1], actions[i - 1], key) then Some(actions[i - 1].p)
    else LastRenamed(states, actions, i - 1, key)
  }

  /** The file that name stands for was written last by w. */
  predicate WrittenBy(s: State, name: Name, w: Writer) {
    name in s.disk.names && s.disk.names[name] < |s.writers| && s.writers[s.disk.names[name]] == w
  }

  // ----- one action -----

  /** Writing a key's sidecar leaves every other name's file to whom it was. */
  lemma TypeLeavesOthers(s: State, p: nat, name: Name, w: Writer)
    requires Inv(s) && Enabled(s, WriteType(p)) && name != TypeName(s.puts[p].key) && !IsTemp(name)
    requires WrittenBy(s, name, w)
    ensures WrittenBy(Apply(s, WriteType(p)), name, w)
  {
    var sidecar := TypeName(s.puts[p].key);
    SidecarIsApart(s, p);
    assert NameOk(s, name);
    assert sidecar in s.disk.names ==> NameOk(s, sidecar);
  }

  lemma TypeIsOwn(s: State, p: nat)
    requires Inv(s) && Enabled(s, WriteType(p))
    ensures WrittenBy(Apply(s, WriteType(p)), TypeName(s.puts[p].key), TypeOf(p))
  {
    SidecarIsApart(s, p);
  }

  /** Whatever else happens leaves a name that is not temporary to whom it was, or takes it away. */
  lemma OthersLeave(s: State, a: Action, name: Name, w: Writer)
    requires Enabled(s, a) && !a.WriteType? && !IsTemp(name) && name in Apply(s, a).disk.names
    requires a.Rename? ==> name != s.puts[a.p].key
    requires a.CreateTemp? ==> ProperKey(s.puts[a.p].key)
    requires name in s.disk.names ==> WrittenBy(s, name, w)
    ensures WrittenBy(Apply(s, a), name, w)
  {
    if a.CreateTemp? {
      NamesApart(s.puts[a.p].key, s.puts[a.p].key, a.random);
    }
  }

  lemma SidecarStep(s: State, a: Action, key: string, w: Writer)
    requires Inv(s) && Enabled(s, a) && ProperKey(key) && TypeName(key) in Apply(s, a).disk.names
    requires TypeName(key) in s.disk.names ==> WrittenBy(s, TypeName(key), w)
    ensures WrittenBy(Apply(s, a), TypeName(key), if Types(s, a, key) then TypeOf(a.p) else w)
  {
    NamesApart(key, key, "");
    if Types(s, a, key) {
      TypeIsOwn(s, a.p);
    } else if a.WriteType? {
      assert PutOk(s, a.p, s.puts[a.p]);
      NamesApart(key, s.puts[a.p].key, "");
      StaysNamed(s, a.p, TypeName(key));
      TypeLeavesOthers(s, a.p, TypeName(key), w);
    } else {
      if a.Rename? || a.CreateTemp? {
        assert PutOk(s, a.p, s.puts[a.p]);
        NamesApart(s.puts[a.p].key, key, "");
      }
      OthersLeave(s, a, TypeName(key), w);
    }
  }

  lemma StaysNamed(s: State, p: nat, name: Name)
    requires Enabled(s, WriteType(p)) && name in Apply(s, WriteType(p)).disk.names && name != TypeName(s.puts[p].key)
    ensures name in s.disk.names
  {}

  lemma RenameIsOwn(s: State, p: nat)
    requires Inv(s) && Enabled(s, Rename(p))
    ensures WrittenBy(Apply(s, Rename(p)), s.puts[p].key, MainOf(p))
  {
    assert PutOk(s, p, s.puts[p]);
  }

  lemma MainStep(s: State, a: Action, key: string, w: Writer)
    requires Inv(s) && Enabled(s, a) && ProperKey(key) && key in Apply(s, a).disk.names
    requires key in s.disk.names ==> WrittenBy(s, key, w)
    ensures WrittenBy(Apply(s, a), key, if Renames(s, a, key) then MainOf(a.p) else w)
  {
    if Renames(s, a, key) {
      RenameIsOwn(s, a.p);
    } else if a.WriteType? {
      assert PutOk(s, a.p, s.puts[a.p]);
      NamesApart(key, s.puts[a.p].key, "");
      StaysNamed(s, a.p, key);
      TypeLeavesOthers(s, a.p, key, w);
    } else {
      assert a.CreateTemp? ==> PutOk(s, a.p, s.puts[a.p]);
      OthersLeave(s, a, key, w);
    }
  }

  /** A name that was not there was written by this action: whoever one supposes it was before. */
  lemma NewSidecar(s: State, a: Action, key: string)
    requires Inv(s) && Enabled(s, a) && ProperKey(key)
    requires TypeName(key) !in s.disk.names && TypeName(key) in Apply(s, a).disk.names
    ensures Types(s, a, key) && WrittenBy(Apply(s, a), TypeName(key), TypeOf(a.p))
  {
    SidecarStep(s, a, key, TypeOf(0));
    SidecarStep(s, a, key, TypeOf(1));
  }

  lemma NewMain(s: State, a: Action, key: string)
    requires Inv(s) && Enabled(s, a) && ProperKey(key) && key !in s.disk.names && key in Apply(s, a).disk.names
    ensures Renames(s, a, key) && WrittenBy(Apply(s, a), key, MainOf(a.p))
  {
    MainStep(s, a, key, MainOf(0));
    MainStep(s, a, key, MainOf(1));
  }

  // ----- a run -----

  /** A sidecar that is there is the last one written for its key. */
  lemma {:induction false} SidecarIsLastTyped(states: seq<State>, actions: seq<Action>, i: nat, key: string)
    requires Run(states, actions) && i < |states| && ProperKey(key) && TypeName(key) in states[i].disk.names
    ensures LastTyped(states, actions, i, key).Some?
    ensures WrittenBy(states[i], TypeName(key), TypeOf(LastTyped(states, actions, i, key).value))
  {
    if i > 0 {
      var s, a := states[i - 1], actions[i - 1];
      RunKeepsInv(states, actions, i - 1);
      if TypeName(key) in s.disk.names {
        SidecarIsLastTyped(states, actions, i - 1, key);
        SidecarStep(s, a, key, TypeOf(LastTyped(states, actions, i - 1, key).value));
      } else {
        NewSidecar(s, a, key);
      }
    }
  }

  /** And a main file the last one renamed to its key. */
  lemma {:induction false} MainIsLastRenamed(states: seq<State>, actions: seq<Action>, i: nat, key: string)
    requires Run(states, actions) && i < |states| && ProperKey(key) && key in states[i].disk.names
    ensures LastRenamed(states, actions, i, key).Some?
    ensures WrittenBy(states[i], key, MainOf(LastRenamed(states, actions, i, key).value))
  {
    if i > 0 {
      var s, a := states[i - 1], actions[i - 1];
      RunKeepsInv(states, actions, i - 1);
      if key in s.disk.names {
        MainIsLastRenamed(states, actions, i - 1, key);
        MainStep(s, a, key, MainOf(LastRenamed(states, actions, i - 1, key).value));
      } else {
        NewMain(s, a, key);
      }
    }
  }

  // ----- a hit -----

  /** Step i is the first read of Get g, of the sidecar, and step j its second, which opens the main file. */
  predicate Reads(states: seq<State>, actions: seq<Action>, i: nat, j: nat, g: nat)
    requires |states| == |actions| + 1
  {
    && i < j < |actions| && actions[i] == GetStep(g) && actions[j] == GetStep(g)
    && g < |states[i].gets| && states[i].gets[g].pc.ReadingType?
    && (forall k | i < k < j :: actions[k] != GetStep(g))
    && g < |states[j + 1].gets| && states[j + 1].gets[g].pc.TouchingMain?
  }

  lemma {:induction false} GetterWaits(states: seq<State>, actions: seq<Action>, i: nat, j: nat, g: nat)
    requires Run(states, actions) && i <= j < |states| && g < |states[i].gets|
    requires forall k | i <= k < j :: actions[k] != GetStep(g)
    ensures g < |states[j].gets| && states[j].gets[g] == states[i].gets[g]
  {
    if i < j {
      GetterWaits(states, actions, i, j - 1, g);
      OthersLeaveGetter(states[j - 1], actions[j - 1], g);
    }
  }

  lemma OthersLeaveGetter(s: State, a: Action, g: nat)
    requires Enabled(s, a) && a != GetStep(g) && g < |s.gets|
    ensures g < |Apply(s, a).gets| && Apply(s, a).gets[g] == s.gets[g]
  {}

  /** What the first read finds is the type of the Put that wrote the sidecar last. */
  lemma FirstRead(s: State, g: nat, t: nat)
    requires Inv(s) && g < |s.gets| && s.gets[g].pc.ReadingType? && Enabled(s, GetStep(g))
    requires TypeName(s.gets[g].key) in s.disk.names ==> WrittenBy(s, TypeName(s.gets[g].key), TypeOf(t))
    ensures var pc := Apply(s, GetStep(g)).gets[g].pc;
      pc.OpeningMain? ==>
        ProperKey(s.gets[g].key) && TypeName(s.gets[g].key) in s.disk.names && t < |s.puts| && pc.mime == s.puts[t].mime
  {
    GetFinds(s, s.gets[g]);
    var name := TypeName(s.gets[g].key);
    if name in s.disk.names {
      assert WriterOk(s, s.disk.names[name]);
    }
  }

  /** What the second read opens is the whole file of the Put renamed last. */
  lemma SecondRead(s: State, g: nat, b: nat)
    requires Inv(s) && g < |s.gets| && s.gets[g].pc.OpeningMain? && Enabled(s, GetStep(g))
    requires s.gets[g].key in s.disk.names ==> WrittenBy(s, s.gets[g].key, MainOf(b))
    ensures var pc := Apply(s, GetStep(g)).gets[g].pc;
      pc.TouchingMain? ==>
        && s.gets[g].key in s.disk.names && pc.mime == s.gets[g].pc.mime
        && b < |s.puts| && s.puts[b].ino == Some(pc.ino)
        && pc.ino < |s.disk.inodes| && s.disk.inodes[pc.ino].data == s.puts[b].content
  {
    var key := s.gets[g].key;
    assert GetOk(s, s.gets[g]);
    if key in s.disk.names {
      assert NameOk(s, key) && PutOk(s, b, s.puts[b]);
      assert s.puts[b].content[..s.puts[b].copied] == s.puts[b].content;
    }
  }

  /** In every run, a hit's MIME type is that of the Put whose type was written
      last before the Get's first read, and its bytes are those of the Put whose
      file was renamed last before its second. */
  lemma HitComesFrom(states: seq<State>, actions: seq<Action>, i: nat, j: nat, g: nat)
    returns (typed: nat, renamed: nat)
    requires Run(states, actions) && Reads(states, actions, i, j, g)
    ensures var key := states[i].gets[g].key;
      LastTyped(states, actions, i, key) == Some(typed) && LastRenamed(states, actions, j, key) == Some(renamed)
    ensures typed < |states[i].puts| && renamed < |states[j].puts|
    ensures var pc := states[j + 1].gets[g].pc;
      && pc.mime == states[i].puts[typed].mime
      && states[j].puts[renamed].ino == Some(pc.ino)
      && pc.ino < |states[j].disk.inodes| && states[j].disk.inodes[pc.ino].data == states[j].puts[renamed].content
  {
    var key := states[i].gets[g].key;
    RunKeepsInv(states, actions, i);
    RunKeepsInv(states, actions, j);
    GetterWaits(states, actions, i + 1, j, g);
    typed := FirstReadOf(states, actions, i, g);
    renamed := SecondReadOf(states, actions, j, g);
  }

  lemma FirstReadOf(states: seq<State>, actions: seq<Action>, i: nat, g: nat) returns (typed: nat)
    requires Run(states, actions) && i < |actions| && actions[i] == GetStep(g)
    requires g < |states[i].gets| && states[i].gets[g].pc.ReadingType? && states[i + 1].gets[g].pc.OpeningMain?
    ensures LastTyped(states, actions, i, states[i].gets[g].key) == Some(typed) && typed < |states[i].puts|
    ensures states[i + 1].gets[g].pc.mime == states[i].puts[typed].mime
  {
    var key := states[i].gets[g].key;
    RunKeepsInv(states, actions, i);
    if !ProperKey(key) {
      ImproperGetMisses(states[i], g);
    }
    if TypeName(key) in states[i].disk.names {
      SidecarIsLastTyped(states, actions, i, key);
      typed := LastTyped(states, actions, i, key).value;
    } else {
      typed := 0;
    }
    FirstRead(states[i], g, typed);
  }

  lemma SecondReadOf(states: seq<State>, actions: seq<Action>, j: nat, g: nat) returns (renamed: nat)
    requires Run(states, actions) && j < |actions| && actions[j] == GetStep(g)
    requires g < |states[j].gets| && states[j].gets[g].pc.OpeningMain? && states[j + 1].gets[g].pc.TouchingMain?
    ensures LastRenamed(states, actions, j, states[j].gets[g].key) == Some(renamed) && renamed < |states[j].puts|
    ensures var pc := states[j + 1].gets[g].pc;
      && pc.mime == states[j].gets[g].pc.mime
      && states[j].puts[renamed].ino == Some(pc.ino)
      && pc.ino < |states[j].disk.inodes| && states[j].disk.inodes[pc.ino].data == states[j].puts[renamed].content
  {
    var key := states[j].gets[g].key;
    RunKeepsInv(states, actions, j);
    assert GetOk(states[j], states[j].gets[g]);
    if key in states[j].disk.names {
      MainIsLastRenamed(states, actions, j, key);
      renamed := LastRenamed(states, actions, j, key).value;
    } else {
      renamed := 0;
    }
    SecondRead(states[j], g, renamed);
  }

  /** The file ino is Put p's. */
  predicate BytesOf(s: State, ino: Ino, p: nat) { p < |s.puts| && s.puts[p].ino == Some(ino) }

  lemma OneOwner(s: State, ino: Ino, p: nat, q: nat)
    requires Inv(s) && BytesOf(s, ino, p) && BytesOf(s, ino, q)
    ensures p == q
  {
    assert PutOk(s, p, s.puts[p]) && PutOk(s, q, s.puts[q]);
  }

  /** A hit's MIME type and bytes come from one and the same Put exactly if the
      Put renamed last before the main file was opened is the one that wrote its
      type last before the sidecar was read. */
  lemma HitIsOnePutIff(states: seq<State>, actions: seq<Action>, i: nat, j: nat, g: nat)
    requires Run(states, actions) && Reads(states, actions, i, j, g)
    ensures var key := states[i].gets[g].key;
      var ino := states[j + 1].gets[g].pc.ino;
      (exists p :: WrittenBy(states[i], TypeName(key), TypeOf(p)) && BytesOf(states[j], ino, p)) <==>
        LastTyped(states, actions, i, key) == LastRenamed(states, actions, j, key)
  {
    var key := states[i].gets[g].key;
    RunKeepsInv(states, actions, i);
    RunKeepsInv(states, actions, j);
    GetterWaits(states, actions, i + 1, j, g);
    var typed := FirstReadOf(states, actions, i, g);
    var renamed := SecondReadOf(states, actions, j, g);
    ReadNamed(states[i], g);
    SidecarIsLastTyped(states, actions, i, key);
    var ino := states[j + 1].gets[g].pc.ino;
    assert WrittenBy(states[i], TypeName(key), TypeOf(typed)) && BytesOf(states[j], ino, renamed);
    if p :| WrittenBy(states[i], TypeName(key), TypeOf(p)) && BytesOf(states[j], ino, p) {
      OneOwner(states[j], ino, p, renamed);
    }
  }

  lemma ReadNamed(s: State, g: nat)
    requires Inv(s) && g < |s.gets| && s.gets[g].pc.ReadingType? && Apply(s, GetStep(g)).gets[g].pc.OpeningMain?
    ensures ProperKey(s.gets[g].key) && TypeName(s.gets[g].key) in s.disk.names
  {
    if !ProperKey(s.gets[g].key) {
      ImproperGetMisses(s, g);
    }
  }

  /** So it does wherever no Put of the key is between writing its type and
      renaming its file, or has given up there, when the Get begins, and none
      renames its file before the Get has opened it. */
  lemma {:induction false} UndisturbedHit(states: seq<State>, actions: seq<Action>, i: nat, j: nat, key: string)
    requires Run(states, actions) && i <= j <= |actions|
    requires LastTyped(states, actions, i, key) == LastRenamed(states, actions, i, key)
    requires forall k | i <= k < j :: !Renames(states[k], actions[k], key)
    ensures LastTyped(states, actions, i, key) == LastRenamed(states, actions, j, key)
  {
    if i < j {
      UndisturbedHit(states, actions, i, j - 1, key);
    }
  }

  // ----- and where it does not -----

  lemma Extend(states: seq<State>, actions: seq<Action>, a: Action, next: State)
    returns (states': seq<State>, actions': seq<Action>)
    requires Run(states, actions) && Enabled(states[|actions|], a) && next == Apply(states[|actions|], a)
    ensures Run(states', actions') && states' == states + [next] && actions' == actions + [a]
  {
    states', actions' := states + [next], actions + [a];
    forall i | 0 <= i < |actions'|
      ensures Enabled(states'[i], actions'[i]) && states'[i + 1] == Apply(states'[i], actions'[i])
    {
      if i < |actions| {
        assert Enabled(states[i], actions[i]) && states[i + 1] == Apply(states[i], actions[i]);
      }
    }
  }

  /** One Put has stored its bytes (inode 0) and type (inode 1). */
  function OneStored(key: string, mime: Bytes, content: Bytes): State {
    State(Disk(map[TypeName(key) := 1, key := 0], [Inode(content, 0), Inode(mime, 0)]),
          [MainOf(0), TypeOf(0)], 0,
          [Putter(key, mime, content, Opening, TempName(key, "0"), Some(0), |content|, true)], [])
  }

  /** A second Put of the key has written its type, and still has its bytes under a temporary name. */
  function OneHalfway(key: string, mime: Bytes, content: Bytes, mime': Bytes, content': Bytes): State {
    var s := OneStored(key, mime, content);
    s.(disk := Disk(s.disk.names[TempName(key, "1") := 2], [Inode(content, 0), Inode(mime', 0), Inode(content', 0)]),
       writers := [MainOf(0), TypeOf(1), MainOf(1)],
       puts := s.puts + [Putter(key, mime', content', Renaming, TempName(key, "1"), Some(2), |content'|, false)])
  }

  lemma NamesDistinct(key: string, r: string)
    requires ProperKey(key) && (r == "0" || r == "1")
    ensures TypeName(key) != key && key != TempName(key, r) && TypeName(key) != TempName(key, r) && AllDecimal(r)
  {
    NamesApart(key, key, r);
  }

  lemma TempsDiffer(key: string)
    ensures TempName(key, "0") != TempName(key, "1")
  {
    var n := |TempName(key, "0")|;
    assert TempName(key, "0")[n - 1] == '0' && TempName(key, "1")[n - 1] == '1';
  }

  /** The first Put has copied its bytes. */
  function OneCopied(key: string, mime: Bytes, content: Bytes): State {
    var tmp := TempName(key, "0");
    State(Disk(map[tmp := 0], [Inode(content, 0)]), [MainOf(0)], 0,
          [Putter(key, mime, content, WritingType, tmp, Some(0), |content|, false)], [])
  }

  lemma ReachOneCopied(key: string, mime: Bytes, content: Bytes) returns (states: seq<State>, actions: seq<Action>)
    requires ProperKey(key)
    ensures Run(states, actions) && |actions| == 4 && states[4] == OneCopied(key, mime, content)
  {
    NamesDistinct(key, "0");
    var tmp, q := TempName(key, "0"), Putter(key, mime, content, Creating, "", None, 0, false);
    states, actions := [State(Disk(map[], []), [], 0, [], [])], [];
    states, actions := Extend(states, actions, CallPut(key, mime, content), State(Disk(map[], []), [], 0, [q], []));
    q := q.(pc := Copying, temp := tmp, ino := Some(0));
    var s := State(Disk(map[tmp := 0], [Inode([], 0)]), [MainOf(0)], 0, [q], []);
    states, actions := Extend(states, actions, CreateTemp(0, "0"), s);
    assert [] + content[0..|content|] == content;
    s := OneCopied(key, mime, content).(puts := [q.(copied := |content|)]);
    states, actions := Extend(states, actions, Copy(0, |content|), s);
    states, actions := Extend(states, actions, EndCopy(0), OneCopied(key, mime, content));
  }

  lemma ReachOneStored(key: string, mime: Bytes, content: Bytes) returns (states: seq<State>, actions: seq<Action>)
    requires ProperKey(key)
    ensures Run(states, actions) && |actions| == 6 && states[6] == OneStored(key, mime, content)
  {
    NamesDistinct(key, "0");
    states, actions := ReachOneCopied(key, mime, content);
    var tmp, name, q := TempName(key, "0"), TypeName(key), OneCopied(key, mime, content).puts[0].(pc := Renaming);
    var disk := Disk(map[tmp := 0, name := 1], [Inode(content, 0), Inode(mime, 0)]);
    states, actions := Extend(states, actions, WriteType(0), State(disk, [MainOf(0), TypeOf(0)], 0, [q], []));
    assert (map[tmp := 0, name := 1] - {tmp})[key := 0] == map[name := 1, key := 0];
    states, actions := Extend(states, actions, Rename(0), OneStored(key, mime, content));
  }

  /** The second Put has made its temporary file. */
  function OneCreated(key: string, mime: Bytes, content: Bytes, mime': Bytes, content': Bytes): State {
    var s, tmp := OneStored(key, mime, content), TempName(key, "1");
    State(Disk(s.disk.names[tmp := 2], s.disk.inodes + [Inode([], 0)]), [MainOf(0), TypeOf(0), MainOf(1)], 0,
          s.puts + [Putter(key, mime', content', Copying, tmp, Some(2), 0, false)], [])
  }

  lemma ReachOneCreated(key: string, mime: Bytes, content: Bytes, mime': Bytes, content': Bytes)
    returns (states: seq<State>, actions: seq<Action>)
    requires ProperKey(key)
    ensures Run(states, actions) && |actions| == 8
    ensures states[8] == OneCreated(key, mime, content, mime', content')
  {
    NamesDistinct(key, "1");
    TempsDiffer(key);
    states, actions := ReachOneStored(key, mime, content);
    var s := OneStored(key, mime, content);
    s := s.(puts := s.puts + [Putter(key, mime', content', Creating, "", None, 0, false)]);
    states, actions := Extend(states, actions, CallPut(key, mime', content'), s);
    states, actions := Extend(states, actions, CreateTemp(1, "1"), OneCreated(key, mime, content, mime', content'));
  }

  lemma ReachHalfway(key: string, mime: Bytes, content: Bytes, mime': Bytes, content': Bytes)
    returns (states: seq<State>, actions: seq<Action>)
    requires ProperKey(key)
    ensures Run(states, actions) && |actions| == 11
    ensures states[11] == OneHalfway(key, mime, content, mime', content')
  {
    NamesDistinct(key, "1");
    states, actions := ReachOneCreated(key, mime, content, mime', content');
    var s := OneCreated(key, mime, content, mime', content');
    var q := s.puts[1].(copied := |content'|);
    assert [] + content'[0..|content'|] == content';
    s := s.(disk := s.disk.(inodes := s.disk.inodes[2 := Inode(content', 0)]), puts := [s.puts[0], q]);
    states, actions := Extend(states, actions, Copy(1, |content'|), s);
    s := s.(puts := [s.puts[0], q.(pc := WritingType)]);
    states, actions := Extend(states, actions, EndCopy(1), s);
    states, actions := Extend(states, actions, WriteType(1), OneHalfway(key, mime, content, mime', content'));
  }

  /** That state as a Get finds it. */
  function ReadAt(key: string, mime: Bytes, content: Bytes, mime': Bytes, content': Bytes, pc: GetPC): State {
    OneHalfway(key, mime, content, mime', content').(gets := [Getter(key, pc)])
  }

  lemma ReachMixed(key: string, mime: Bytes, content: Bytes, mime': Bytes, content': Bytes)
    returns (states: seq<State>, actions: seq<Action>)
    requires ProperKey(key)
    ensures Run(states, actions) && |actions| == 14 && actions[12] == actions[13] == GetStep(0)
    ensures states[12] == ReadAt(key, mime, content, mime', content', ReadingType)
    ensures states[13] == ReadAt(key, mime, content, mime', content', OpeningMain(mime'))
    ensures states[14] == ReadAt(key, mime, content, mime', content', TouchingMain(mime', 0))
  {
    NamesDistinct(key, "1");
    states, actions := ReachHalfway(key, mime, content, mime', content');
    var s := ReadAt(key, mime, content, mime', content', ReadingType);
    states, actions := Extend(states, actions, CallGet(key), s);
    states, actions := Extend(states, actions, GetStep(0), s.(gets := [Getter(key, OpeningMain(mime'))]));
    states, actions := Extend(states, actions, GetStep(0), s.(gets := [Getter(key, TouchingMain(mime', 0))]));
  }

  /** A Get that reads while a second Put of its key is between its two
      operations gets the second's MIME type with the first's bytes. */
  lemma MixedHit(key: string, mime: Bytes, content: Bytes, mime': Bytes, content': Bytes)
    returns (states: seq<State>, actions: seq<Action>)
    requires ProperKey(key)
    ensures Run(states, actions) && |actions| == 14 && Reads(states, actions, 12, 13, 0)
    ensures states[14].gets[0] == Getter(key, TouchingMain(mime', 0)) && states[14].disk.ReadFile(key) == Some(content)
    ensures LastTyped(states, actions, 12, key) == Some(1) && LastRenamed(states, actions, 13, key) == Some(0)
  {
    NamesDistinct(key, "1");
    states, actions := ReachMixed(key, mime, content, mime', content');
    SidecarIsLastTyped(states, actions, 12, key);
    MainIsLastRenamed(states, actions, 13, key);
  }

  // ----- a sweep, in the interleaved model -----

  /** Every name a sweep removes is one whose removal the interleaved model
      knows as an eviction, at any state; so what holds of evictions holds of sweeps. */
  lemma SweepIsEvictions(
    d: Disk, d': Disk, maxBytes: int, gone: seq<DiskCache.Entry>, n: Name, s: State)
    requires DiskCache.SweepOf(d, d', maxBytes, gone) && n in d.names && n !in d'.names
    ensures Enabled(s, Evict(n))
  {
    if ".tmp-" <= n {
      DiskCache.SweepSpares(d, d', maxBytes, gone, n);
    }
  }

  /** A hit marks its entry as used now, whatever has been stored under its key since. */
  lemma HitTouches(s: State, g: nat)
    requires Enabled(s, GetStep(g)) && s.gets[g].pc.TouchingMain? && s.disk.Holds(s.gets[g].key)
    ensures var d := Apply(s, GetStep(g)).disk;
      d.Holds(s.gets[g].key) && d.inodes[d.names[s.gets[g].key]].mtime == s.now &&
      d.ReadFile(s.gets[g].key) == s.disk.ReadFile(s.gets[g].key)
  {}
}

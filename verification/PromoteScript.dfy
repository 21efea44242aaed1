/** `promote.sh` as it runs: it reads and rewrites pin files, commits, pushes and polls. */
module PromoteScript {
  import opened ImagePins
  import opened Promotion

  /** The three kustomizations one promotion can read or write. */
  datatype Files = Files(base: Kustomization, staging: Kustomization, prod: Kustomization)

  /** What `read_image_field` makes of a file. */
  function PinOf(k: Kustomization): Pin { Pin(Awk(Text(k), false, "newName"), Awk(Text(k), false, "newTag")) }

  function PinsOf(f: Files): Pins { Pins(PinOf(f.base), PinOf(f.staging), PinOf(f.prod)) }

  function Target(f: Files, e: Env): Kustomization { if e == Staging then f.staging else f.prod }

  function Source(f: Files, e: Env): Kustomization { if e == Staging then f.base else f.staging }

  function WithTarget(f: Files, e: Env, k: Kustomization): Files {
    if e == Staging then f.(staging := k) else f.(prod := k)
  }

  /** Committing an edited work tree appends one repinning commit. */
  lemma Repinned(f: Files, g: Files, e: Env, pin: Pin, history: seq<Pins>)
    requires history != [] && Head(history) == PinsOf(f) && PinsOf(g) == Repin(PinsOf(f), e, pin)
    ensures history + [PinsOf(g)] == history + [Repin(Head(history), e, pin)]
    ensures Head(history + [PinsOf(g)]) == PinsOf(g)
  {
  }

  predicate Foreign(lines: seq<Line>) { forall i :: 0 <= i < |lines| ==> !StartsEntry(lines[i]) }

  /** The image is named only inside the `images:` list, if anywhere. */
  predicate OnlyInImages(k: Kustomization) { Foreign(k.header) && Foreign(k.trailer) }

  function Edited(k: Kustomization, pin: Pin): Kustomization {
    k.(images := SetImage(k.images, Image(IMAGE_NAME, pin.name, pin.tag)))
  }

  lemma {:induction false} ForeignRender(images: seq<Image>)
    requires !HasImage(images, IMAGE_NAME)
    ensures Foreign(Render(images))
  {
    if images != [] {
      assert images[0].name != IMAGE_NAME;
      ForeignEntry(images[0]);
      assert forall k :: 0 <= k < |images[1..]| ==> images[1..][k] == images[k + 1];
      ForeignRender(images[1..]);
    }
  }

  lemma MissingEntryReadsNothing(k: Kustomization, field: string)
    requires OnlyInImages(k) && !HasImage(k.images, IMAGE_NAME)
    ensures Awk(Text(k), false, field) == ""
  {
    ForeignRender(k.images);
    assert Text(k) == Text(k) + [];
    SkipsForeignLines(Text(k), [], field);
  }

  /** A tag that could be read guarantees a name that the reader can step over. */
  lemma ReadableNameIsPlain(k: Kustomization)
    requires OnlyInImages(k) && PinOf(k).name != "" && PinOf(k).tag != ""
    ensures !Contains(PinOf(k).name, "name:")
  {
    if !HasImage(k.images, IMAGE_NAME) { MissingEntryReadsNothing(k, "newTag"); }
    ReadsFromList(k.images, k.trailer);
    var rest := Render(k.images) + k.trailer;
    assert Text(k) == k.header + rest;
    SkipsForeignLines(k.header, rest, "newName");
    SkipsForeignLines(k.header, rest, "newTag");
  }

  /** Writing a pin that was read from one file into another gives the second file that pin. */
  lemma CopiedPin(from: Kustomization, to: Kustomization)
    requires OnlyInImages(from) && OnlyInImages(to)
    requires PinOf(from).name != "" && PinOf(from).tag != ""
    ensures PinOf(Edited(to, PinOf(from))) == PinOf(from)
  {
    ReadableNameIsPlain(from);
    WrittenPinIsReadBack(to, PinOf(from).name, PinOf(from).tag);
  }

  class Checkout {
    var work: Files
    var committed: Files
    var history: seq<Pins>
    var origin: seq<Pins>
    var live: Live
    const automated: set<App>

    ghost predicate Valid()
      reads this
    {
      && history != [] && origin != [] && work == committed && Head(history) == PinsOf(committed)
      && OnlyInImages(work.base) && OnlyInImages(work.staging) && OnlyInImages(work.prod)
    }

    ghost function Contents(): (s: State)
      reads this
      requires Valid()
      ensures ValidState(s)
    {
      State(history, origin, live, automated)
    }

    constructor (files: Files, running: Live)
      requires OnlyInImages(files.base) && OnlyInImages(files.staging) && OnlyInImages(files.prod)
      ensures Valid() && work == files && Contents() == State([PinsOf(files)], [PinsOf(files)], running, SYNC_MODES)
    {
      work, committed, automated := files, files, SYNC_MODES;
      history, origin, live := [PinsOf(files)], [PinsOf(files)], running;
    }

    /** The loop over `operationState.phase`. */
    method WaitForOperation(phases: seq<string>) returns (phase: string)
      requires |phases| == 60
      ensures phase == PollPhase(phases)
      ensures exists k :: StopsAt(phases, k) && phase == phases[k]
    {
      ghost var stop := PollStops(phases);
      phase := "";
      for k := 0 to 60
        invariant k > 0 ==> phase == phases[k - 1] && !Terminal(phase)
        invariant PollPhase(phases) == if k == 60 then phase else PollPhase(phases[k..])
      {
        assert phases[k..][0] == phases[k] && phases[k..][1..] == phases[k + 1..];
        phase := phases[k];
        if Terminal(phase) { return; }
      }
    }

    method OpenGate(c: Call) returns (exit: int)
      requires Valid() && ValidCall(c)
      modifies this`live
      ensures Valid() && (Contents(), exit) == Gate(old(Contents()), c)
    {
      if c.env == Staging || !c.sync { return 0; }
      if !c.kubectl { return 1; }
      if c.applied { live := live.(prod := Head(origin).prod.tag); }
      var phase := WaitForOperation(c.phases);
      exit := if phase == SUCCEEDED then 0 else 1;
    }

    method Run(c: Call) returns (exit: int)
      requires Valid() && ValidCall(c)
      modifies this
      ensures Valid() && (Contents(), exit) == Promote(old(Contents()), c)
      ensures work.base == old(work.base) && Source(work, c.env) == Source(old(work), c.env)
      ensures c.dryRun ==> work == old(work)
    {
      var newName := ReadImageField(Text(Source(work, c.env)), "newName");
      var newTag := ReadImageField(Text(Source(work, c.env)), "newTag");
      if newName == "" || newTag == "" { return 1; }
      var currentTag := ReadImageField(Text(Target(work, c.env)), "newTag");
      if currentTag != newTag {
        if c.dirtyIndex { return 1; }
        if c.dryRun { TryTarget(c.env, Pin(newName, newTag)); return 0; }
        var pushed := CommitTarget(c.env, Pin(newName, newTag), c.pushReaches);
        if !pushed { return 1; }
      }
      exit := OpenGate(c);
    }

    /** The dry run: edit the file, then `git checkout` it. */
    method TryTarget(e: Env, pin: Pin)
      requires Valid() && pin == PinOf(Source(work, e)) && pin.name != "" && pin.tag != ""
      modifies this`work
      ensures work == old(work)
    {
      EditTarget(e, pin);
      work := WithTarget(work, e, Target(committed, e));
    }

    /** Edit, `git add`, `git commit`, `git push`. */
    method CommitTarget(e: Env, pin: Pin, pushReaches: bool) returns (pushed: bool)
      requires Valid() && pin == PinOf(Source(work, e)) && pin.name != "" && pin.tag != ""
      modifies this
      ensures Valid() && live == old(live) && Source(work, e) == Source(old(work), e) && work.base == old(work.base)
      ensures history == old(history) + [Repin(Head(old(history)), e, pin)]
      ensures pushed == PushAccepted(old(Contents()), history, pushReaches)
      ensures origin == if pushed then history else old(origin)
    {
      EditTarget(e, pin);
      Repinned(committed, work, e, pin, history);
      committed := work;
      history := history + [PinsOf(work)];
      pushed := pushReaches && origin <= history;
      if pushed { origin := history; }
    }

    /** `kustomize edit set image` in the target directory. */
    method EditTarget(e: Env, pin: Pin)
      requires Valid() && pin == PinOf(Source(work, e)) && pin.name != "" && pin.tag != ""
      modifies this`work
      ensures work == WithTarget(old(work), e, Edited(Target(old(work), e), pin))
      ensures PinsOf(work) == Repin(PinsOf(old(work)), e, pin)
      ensures OnlyInImages(Target(work, e))
    {
      CopiedPin(Source(work, e), Target(work, e));
      work := WithTarget(work, e, Edited(Target(work, e), pin));
    }
  }
}

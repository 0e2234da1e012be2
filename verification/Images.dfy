/**
 Image references: which image the deploy builds, pushes, pulls and names in the compose
 override, for every service of a compose project.
 */
module Images {
  import opened Wrappers
  import opened Strings

  // args are the build arguments in the order the map happened to yield them.
  datatype Build = Build(context: string, dockerfile: string, args: seq<(string, string)>)

  datatype Service = Service(name: string, hostname: string, image: string, build: Option<Build>)

  datatype ServiceOverride = ServiceOverride(refName: string, name: string, hostname: string, image: string)

  function StripTag(image: string): string {
    var split := Split(image, ':');
    if |split| > 1 then split[0] else image
  }

  function Reference(image: string, tag: string): string { StripTag(image) + ":" + tag }

  // What StripTag keeps: everything before the first colon.
  lemma StripTagIsPrefix(image: string)
    ensures ':' !in StripTag(image)
    ensures StripTag(image) == image || StripTag(image) + ":" <= image
  {
    if ':' in image {
      var a, b := FirstSeparator(image, ':');
      SplitAtSeparator(a, b, ':');
    } else {
      SplitWithoutSeparator(image, ':');
    }
  }

  lemma StripTagOfTagged(repository: string, tag: string)
    requires ':' !in repository
    ensures StripTag(repository + ":" + tag) == repository
  {
    SplitAtSeparator(repository, tag, ':');
  }

  // StripTag recovers the repository of a tagged image exactly when the repository holds no
  // colon: a registry port is taken for a tag.
  lemma StripTagInvertsTagging(repository: string, tag: string)
    ensures StripTag(repository + ":" + tag) == repository <==> ':' !in repository
  {
    StripTagIsPrefix(repository + ":" + tag);
    if ':' !in repository { StripTagOfTagged(repository, tag); }
  }

  lemma RegistryPortIsLost()
    ensures StripTag("localhost:5000/app:v1") == "localhost"
  {
    StripTagOfTagged("localhost", "5000/app:v1");
    assert "localhost:5000/app:v1" == "localhost" + ":" + "5000/app:v1";
  }

  // Two images get one reference exactly when they agree up to the first colon, so all images
  // of one registry with a port share a reference.
  lemma SameReference(x: string, y: string, tag: string)
    ensures Reference(x, tag) == Reference(y, tag) <==> StripTag(x) == StripTag(y)
    ensures forall host, a, b | ':' !in host && x == host + ":" + a && y == host + ":" + b ::
              Reference(x, tag) == Reference(y, tag)
  {
    var a, b := StripTag(x), StripTag(y);
    if Reference(x, tag) == Reference(y, tag) {
      assert (a + ":" + tag)[..|a|] == a && (b + ":" + tag)[..|b|] == b;
    }
    forall host, a, b | ':' !in host && x == host + ":" + a && y == host + ":" + b
      ensures StripTag(x) == StripTag(y)
    {
      StripTagOfTagged(host, a);
      StripTagOfTagged(host, b);
    }
  }

  // Retagging is idempotent in the repository: only the last tag counts.
  lemma Retagging(image: string, first: string, second: string)
    ensures Reference(Reference(image, first), second) == Reference(image, second)
  {
    StripTagIsPrefix(image);
    StripTagOfTagged(StripTag(image), first);
  }

  // The commands, one per service that needs one.

  function ArgFlags(args: seq<(string, string)>): seq<string> {
    if args == [] then [] else ["--build-arg", args[0].0 + "=" + args[0].1] + ArgFlags(args[1..])
  }

  function FileFlags(b: Build): seq<string> {
    if b.dockerfile == "" then []
    else if !(b.context <= b.dockerfile) then ["-f", b.context + "/" + b.dockerfile]
    else ["-f", b.dockerfile]
  }

  function BuildWords(s: Service, tag: string): seq<string>
    requires s.build.Some?
  {
    var b := s.build.value;
    ArgFlags(b.args) + ["--tag", Reference(s.image, tag)] + FileFlags(b) + [b.context]
  }

  function BuildCommand(s: Service, tag: string): Option<string> {
    if s.build.None? then None else Some("builder build " + Join(BuildWords(s, tag), ' '))
  }

  function PushCommand(s: Service, tag: string): Option<string> {
    if s.build.None? then None else Some("push " + Reference(s.image, tag))
  }

  function PullCommand(s: Service, tag: string): Option<string> {
    if s.image == "" then None
    else if s.build.Some? then Some("pull " + Reference(s.image, tag))
    else Some("pull " + s.image)
  }

  function Issued(services: seq<Service>, command: Service -> Option<string>): seq<string> {
    if services == [] then []
    else
      var last := |services| - 1;
      Issued(services[..last], command) + Listed(command(services[last]))
  }

  function Listed(command: Option<string>): seq<string> {
    if command.Some? then [command.value] else []
  }

  lemma {:induction false} IssuedHas(services: seq<Service>, command: Service -> Option<string>, s: Service)
    requires s in services && command(s).Some?
    ensures command(s).value in Issued(services, command)
  {
    var last := |services| - 1;
    if services[last] != s { IssuedHas(services[..last], command, s); }
  }

  lemma {:induction false} IssuedPrefix(services: seq<Service>, command: Service -> Option<string>, i: nat)
    requires i <= |services|
    ensures Issued(services[..i], command) <= Issued(services, command)
  {
    if i < |services| {
      var last := |services| - 1;
      assert services[..last][..i] == services[..i];
      IssuedPrefix(services[..last], command, i);
    } else {
      assert services[..i] == services;
    }
  }

  lemma IssuedStep(services: seq<Service>, command: Service -> Option<string>, i: nat)
    requires i < |services|
    ensures Issued(services[..i + 1], command) == Issued(services[..i], command) + Listed(command(services[i]))
  {
    assert services[..i + 1][..i] == services[..i];
  }

  // A command that reached the runtime, and what the runtime answered.
  datatype Sent = Sent(command: string, result: Result<string, string>)

  function Commands(sent: seq<Sent>): seq<string> { seq(|sent|, i requires 0 <= i < |sent| => sent[i].command) }

  predicate AllSucceeded(sent: seq<Sent>) { forall i | 0 <= i < |sent| :: sent[i].result.Success? }

  function Outputs(sent: seq<Sent>): string {
    if sent == [] then ""
    else
      var last := sent[|sent| - 1];
      Outputs(sent[..|sent| - 1]) + if last.result.Success? then last.result.value else ""
  }

  // These commands were sent in order, up to the first that failed. It is a success exactly when
  // none failed; then all were sent, and the output is theirs.
  predicate SentInOrder(before: seq<Sent>, after: seq<Sent>, all: seq<string>, r: Result<string, string>) {
    before <= after &&
    var sent := after[|before|..];
    && Commands(sent) <= all
    && (sent != [] ==> AllSucceeded(sent[..|sent| - 1]))
    && (r.Success? <==> AllSucceeded(sent))
    && (r.Success? ==> Commands(sent) == all && r.value == Outputs(sent))
  }

  // So far these were sent, and none failed.
  predicate SentSoFar(before: seq<Sent>, after: seq<Sent>, commands: seq<string>, output: string) {
    before <= after &&
    var sent := after[|before|..];
    Commands(sent) == commands && AllSucceeded(sent) && Outputs(sent) == output
  }

  lemma OneMoreSent(before: seq<Sent>, after: seq<Sent>, commands: seq<string>, output: string, sent: Sent)
    requires SentSoFar(before, after, commands, output)
    ensures before <= after + [sent]
    ensures (after + [sent])[|before|..] == after[|before|..] + [sent]
    ensures Commands(after[|before|..] + [sent]) == commands + [sent.command]
    ensures sent.result.Success? ==> SentSoFar(before, after + [sent], commands + [sent.command], output + sent.result.value)
    ensures sent.result.Failure? ==> !AllSucceeded(after[|before|..] + [sent])
  {
    var done := after[|before|..];
    assert (after + [sent])[|before|..] == done + [sent];
    assert (done + [sent])[..|done|] == done && (done + [sent])[|done|] == sent;
  }

  // A failure ends it there.
  lemma StoppedThere(before: seq<Sent>, after: seq<Sent>, commands: seq<string>, output: string, sent: Sent,
                     all: seq<string>, error: string)
    requires SentSoFar(before, after, commands, output) && sent.result.Failure? && commands + [sent.command] <= all
    ensures SentInOrder(before, after + [sent], all, Failure(error))
  {
    OneMoreSent(before, after, commands, output, sent);
    var done := after[|before|..];
    assert (done + [sent])[..|done|] == done;
  }

  // What has been sent after one service more, and after no more.
  lemma IssuedNext(services: seq<Service>, command: Service -> Option<string>, i: nat)
    requires i < |services|
    ensures Issued(services[..i + 1], command) == Issued(services[..i], command) + Listed(command(services[i]))
    ensures Issued(services[..i + 1], command) <= Issued(services, command)
  {
    IssuedStep(services, command, i);
    IssuedPrefix(services, command, i + 1);
  }

  // Runs container commands for a compose project; sent is what reached the runtime.
  class ContainerManager {
    const services: seq<Service>
    var sent: seq<Sent>

    constructor (services: seq<Service>)
      ensures this.services == services && sent == []
    {
      this.services := services;
      sent := [];
    }

    // A command reaches the runtime; whether it succeeds is up to the runtime.
    method Exec(command: string) returns (r: Result<string, string>)
      modifies this`sent
      ensures sent == old(sent) + [Sent(command, r)]
    {
      r := *;
      sent := sent + [Sent(command, r)];
    }

    // The words of one build command, appended in the order Build does.
    method BuildArguments(service: Service, tag: string) returns (buildArgs: seq<string>)
      requires service.build.Some?
      ensures buildArgs == BuildWords(service, tag)
    {
      var image := StripTag(service.image);
      var build := service.build.value;
      buildArgs := [];
      for j := 0 to |build.args|
        invariant buildArgs + ArgFlags(build.args[j..]) == ArgFlags(build.args)
      {
        var (k, v) := build.args[j];
        buildArgs := buildArgs + ["--build-arg", k + "=" + v];
      }
      buildArgs := buildArgs + ["--tag", image + ":" + tag];
      if build.dockerfile != "" {
        if !(build.context <= build.dockerfile) {
          buildArgs := buildArgs + ["-f", build.context + "/" + build.dockerfile];
        } else {
          buildArgs := buildArgs + ["-f", build.dockerfile];
        }
      }
      buildArgs := buildArgs + [build.context];
    }

    // Build, Pull and Push go through the services in order, up to the first failure.
    method Build(tag: string) returns (r: Result<string, string>)
      modifies this`sent
      ensures SentInOrder(old(sent), sent, Issued(services, s => BuildCommand(s, tag)), r)
    {
      var f := s => BuildCommand(s, tag);
      var output := "";
      for i := 0 to |services|
        invariant SentSoFar(old(sent), sent, Issued(services[..i], f), output)
      {
        IssuedNext(services, f, i);
        var service := services[i];
        if service.build.None? { continue; }
        var buildArgs := BuildArguments(service, tag);
        ghost var before := sent;
        var buildOutput := Exec("builder build " + Join(buildArgs, ' '));
        ghost var last := sent[|before|];
        OneMoreSent(old(sent), before, Issued(services[..i], f), output, last);
        if buildOutput.Failure? {
          StoppedThere(old(sent), before, Issued(services[..i], f), output, last, Issued(services, f), "failed to build image");
          return Failure("failed to build image");
        }
        output := output + buildOutput.value;
      }
      assert services[..|services|] == services;
      return Success(output);
    }

    method Pull(tag: string) returns (r: Result<string, string>)
      modifies this`sent
      ensures SentInOrder(old(sent), sent, Issued(services, s => PullCommand(s, tag)), r)
    {
      var f := s => PullCommand(s, tag);
      var output := "";
      for i := 0 to |services|
        invariant SentSoFar(old(sent), sent, Issued(services[..i], f), output)
      {
        IssuedNext(services, f, i);
        var service := services[i];
        if service.image == "" { continue; }
        var image := service.image;
        if service.build.Some? { image := StripTag(service.image) + ":" + tag; }
        ghost var before := sent;
        var pullOutput := Exec("pull " + image);
        ghost var last := sent[|before|];
        OneMoreSent(old(sent), before, Issued(services[..i], f), output, last);
        if pullOutput.Failure? {
          StoppedThere(old(sent), before, Issued(services[..i], f), output, last, Issued(services, f), "failed to pull image");
          return Failure("failed to pull image");
        }
        output := output + pullOutput.value;
      }
      assert services[..|services|] == services;
      return Success(output);
    }

    method Push(tag: string) returns (r: Result<string, string>)
      modifies this`sent
      ensures SentInOrder(old(sent), sent, Issued(services, s => PushCommand(s, tag)), r)
    {
      var f := s => PushCommand(s, tag);
      var output := "";
      for i := 0 to |services|
        invariant SentSoFar(old(sent), sent, Issued(services[..i], f), output)
      {
        IssuedNext(services, f, i);
        var service := services[i];
        if service.build.None? { continue; }
        var image := StripTag(service.image);
        ghost var before := sent;
        var pushOutput := Exec("push " + (image + ":" + tag));
        ghost var last := sent[|before|];
        OneMoreSent(old(sent), before, Issued(services[..i], f), output, last);
        if pushOutput.Failure? {
          StoppedThere(old(sent), before, Issued(services[..i], f), output, last, Issued(services, f), "failed to push image");
          return Failure("failed to push image");
        }
        output := output + pushOutput.value;
      }
      assert services[..|services|] == services;
      return Success(output);
    }
  }

  // The compose override.

  predicate DistinctNames(services: seq<Service>) {
    forall i, j | 0 <= i < j < |services| :: services[i].name != services[j].name
  }

  // One entry for each service that is built; of two services with one name the later counts.
  function Overrides(services: seq<Service>, tag: string): map<string, ServiceOverride> {
    if services == [] then map[]
    else
      var last := services[|services| - 1];
      var rest := Overrides(services[..|services| - 1], tag);
      if last.build.Some? then rest[last.name := OverrideEntry(last, tag)] else rest
  }

  method NewComposeOverride(services: seq<Service>, tag: string)
    returns (overrides: map<string, ServiceOverride>)
    ensures overrides == Overrides(services, tag)
  {
    overrides := map[];
    for i := 0 to |services|
      invariant overrides == Overrides(services[..i], tag)
    {
      assert services[..i + 1][..i] == services[..i];
      var service := services[i];
      if service.build.Some? {
        overrides := overrides[service.name := ServiceOverride(
                                 service.name,
                                 service.name + "-" + tag,
                                 service.hostname + "-" + tag,
                                 StripTag(service.image) + ":" + tag)];
      }
    }
    assert services[..|services|] == services;
  }

  // A service's entry: under its own name, with the tag at container and host name and in place of
  // the image's own.
  predicate IsEntry(s: Service, tag: string, e: ServiceOverride) {
    && e.refName == s.name && e.name == s.name + "-" + tag && e.hostname == s.hostname + "-" + tag
    && e.image == StripTag(s.image) + ":" + tag
  }

  // An entry exactly for every service that is built, and with distinct names that service's own.
  lemma {:induction false} OverridesAre(services: seq<Service>, tag: string)
    ensures forall name | name in Overrides(services, tag) ::
              exists s :: s in services && s.build.Some? && s.name == name && IsEntry(s, tag, Overrides(services, tag)[name])
    ensures forall s | s in services && s.build.Some? :: s.name in Overrides(services, tag)
    ensures DistinctNames(services) ==>
              forall s | s in services && s.build.Some? :: IsEntry(s, tag, Overrides(services, tag)[s.name])
  {
    if services != [] {
      var n := |services| - 1;
      var front, last := services[..n], services[n];
      OverridesAre(front, tag);
      assert services == front + [last];
      if DistinctNames(services) {
        assert DistinctNames(front);
        forall s | s in front ensures s.name != last.name {
          var i :| 0 <= i < n && front[i] == s;
          assert services[i].name != services[n].name;
        }
      }
    }
  }

  // What compose runs for the two files together: under each service's name the image of the
  // compose file, or that of the override if it has an entry.
  function Base(services: seq<Service>): map<string, string> {
    if services == [] then map[]
    else Base(services[..|services| - 1])[services[|services| - 1].name := services[|services| - 1].image]
  }

  function Deployed(services: seq<Service>, tag: string): map<string, string> {
    var overrides := Overrides(services, tag);
    Base(services) + map name | name in overrides :: overrides[name].image
  }

  // With distinct names compose runs every service of the project and nothing else: one that is
  // built under the reference of this tag, any other under its own image.
  lemma DeployedIs(services: seq<Service>, tag: string)
    requires DistinctNames(services)
    ensures forall s | s in services ::
              s.name in Deployed(services, tag) &&
              Deployed(services, tag)[s.name] == if s.build.Some? then Reference(s.image, tag) else s.image
    ensures forall name | name in Deployed(services, tag) :: exists s :: s in services && s.name == name
  {
    OverridesAre(services, tag);
    BaseIs(services);
    forall s, t | s in services && t in services && s.name == t.name ensures s == t { SameName(services, s, t); }
  }

  lemma SameName(services: seq<Service>, s: Service, t: Service)
    requires DistinctNames(services) && s in services && t in services && s.name == t.name
    ensures s == t
  {
    var i :| 0 <= i < |services| && services[i] == s;
    var j :| 0 <= j < |services| && services[j] == t;
    assert i == j;
  }

  lemma {:induction false} BaseIs(services: seq<Service>)
    ensures forall name :: name in Base(services) <==> exists s :: s in services && s.name == name
    ensures DistinctNames(services) ==> forall s | s in services :: Base(services)[s.name] == s.image
  {
    if services != [] {
      var n := |services| - 1;
      var front, last := services[..n], services[n];
      BaseIs(front);
      assert services == front + [last];
      if DistinctNames(services) {
        forall s | s in front ensures s.name != last.name {
          var i :| 0 <= i < n && front[i] == s;
          assert services[i].name != services[n].name;
        }
      }
    }
  }

  function OverrideEntry(s: Service, tag: string): ServiceOverride {
    ServiceOverride(s.name, s.name + "-" + tag, s.hostname + "-" + tag, Reference(s.image, tag))
  }

  lemma {:induction false} ArgFlagsLength(args: seq<(string, string)>)
    ensures |ArgFlags(args)| == 2 * |args|
  {
    if args != [] { ArgFlagsLength(args[1..]); }
  }

  // A Dockerfile is named by a path that starts with the build's context and ends with what the
  // compose file calls it.
  lemma DockerfileInContext(b: Build)
    ensures FileFlags(b) == [] <==> b.dockerfile == ""
    ensures FileFlags(b) != [] ==>
              |FileFlags(b)| == 2 && FileFlags(b)[0] == "-f" &&
              b.context <= FileFlags(b)[1] && HasSuffix(FileFlags(b)[1], b.dockerfile) &&
              FileFlags(b)[1] == if b.context <= b.dockerfile then b.dockerfile else b.context + "/" + b.dockerfile
  {
    var joined := b.context + "/" + b.dockerfile;
    assert b.context <= joined && joined[|joined| - |b.dockerfile|..] == b.dockerfile;
  }

  // Main result: a built service with an image is built, pushed, pulled and overridden under
  // one reference, and all four happen under it.
  lemma ReferencesAgree(services: seq<Service>, tag: string, s: Service)
    requires s in services && s.build.Some?
    ensures var image := OverrideEntry(s, tag).image;
            && (var i := 2 * |s.build.value.args|;
                i + 1 < |BuildWords(s, tag)| && BuildWords(s, tag)[i..i + 2] == ["--tag", image])
            && BuildCommand(s, tag).value in Issued(services, x => BuildCommand(x, tag))
            && "push " + image in Issued(services, x => PushCommand(x, tag))
            && (s.image != "" ==> "pull " + image in Issued(services, x => PullCommand(x, tag)))
    ensures PullCommand(s, tag).None? <==> s.image == ""
  {
    ArgFlagsLength(s.build.value.args);
    IssuedHas(services, x => BuildCommand(x, tag), s);
    IssuedHas(services, x => PushCommand(x, tag), s);
    if s.image != "" { IssuedHas(services, x => PullCommand(x, tag), s); }
  }
  // A service without a build section is pulled under its own image, if it has one, and neither
  // built nor pushed.
  lemma UnbuiltIsPulledAsIs(services: seq<Service>, tag: string, s: Service)
    requires s in services && s.build.None?
    ensures BuildCommand(s, tag).None? && PushCommand(s, tag).None?
    ensures s.image != "" ==> "pull " + s.image in Issued(services, x => PullCommand(x, tag))
    ensures PullCommand(s, tag).None? <==> s.image == ""
  {
    if s.image != "" { IssuedHas(services, x => PullCommand(x, tag), s); }
  }

  lemma {:induction false} ArgFlagsAt(args: seq<(string, string)>, i: nat)
    requires i < |args|
    ensures |ArgFlags(args)| == 2 * |args|
    ensures ArgFlags(args)[2 * i] == "--build-arg" && ArgFlags(args)[2 * i + 1] == args[i].0 + "=" + args[i].1
  {
    ArgFlagsLength(args);
    if i > 0 { ArgFlagsAt(args[1..], i - 1); }
  }

  // A build command starts with the build arguments in order, and ends with the build's context.
  lemma BuildWordsAre(s: Service, tag: string)
    requires s.build.Some?
    ensures var args, words := s.build.value.args, BuildWords(s, tag);
            && |words| == 2 * |args| + 3 + |FileFlags(s.build.value)|
            && words[|words| - 1] == s.build.value.context
            && forall i | 0 <= i < |args| :: words[2 * i] == "--build-arg" && words[2 * i + 1] == args[i].0 + "=" + args[i].1
  {
    var args, words := s.build.value.args, BuildWords(s, tag);
    ArgFlagsLength(args);
    forall i | 0 <= i < |args| ensures words[2 * i] == "--build-arg" && words[2 * i + 1] == args[i].0 + "=" + args[i].1 {
      ArgFlagsAt(args, i);
    }
  }
}

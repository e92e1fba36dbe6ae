/** pkg/config/images.go: image defaults, the version matrix and how overrides are layered.
    A Go map is iterated in an unspecified order: `order` is any list of the matrix keys. */
module Images {
  import opened Types
  import opened Strings

  const REGISTRY := "us-docker.pkg.dev/oplabs-tools-artifacts/images"
  const DEFAULT_OP_STACK_VERSION := "v1.13.3"
  const DEFAULT_OP_GETH_VERSION := "v1.101511.0"

  datatype Component = OpGeth | OpNode | OpBatcher | OpProposer | OpChallenger

  function Repository(c: Component): string {
    match c
    case OpGeth => "op-geth"
    case OpNode => "op-node"
    case OpBatcher => "op-batcher"
    case OpProposer => "op-proposer"
    case OpChallenger => "op-challenger"
  }

  function Image(c: Component, version: string): string {
    REGISTRY + "/" + Repository(c) + ":" + version
  }

  datatype VersionSet = VersionSet(opNode: string, opGeth: string, opBatcher: string, opProposer: string,
                                   opChallenger: string)
  {
    function Version(c: Component): string {
      match c
      case OpGeth => opGeth
      case OpNode => opNode
      case OpBatcher => opBatcher
      case OpProposer => opProposer
      case OpChallenger => opChallenger
    }
  }

  const DEFAULTS := VersionSet(DEFAULT_OP_STACK_VERSION, DEFAULT_OP_GETH_VERSION, "v1.12.0", "v1.10.0", "v1.5.1")
  const LATEST := VersionSet("latest", "latest", "latest", "latest", "latest")
  const MATRIX: map<string, VersionSet> := map["stable-v1.13" := DEFAULTS, "latest" := LATEST]

  /** Any order in which a Go range over the matrix may visit its keys. */
  ghost predicate IterationOrder(order: seq<string>) {
    forall k :: k in order <==> k in MATRIX
  }

  /** `extractVersionFromImage`: what follows the last colon, or nothing when there is none. */
  function Tag(image: string): string {
    var parts := Split(image, ':');
    if image == "" || |parts| < 2 then "" else parts[|parts| - 1]
  }

  lemma SplitOnce(s: string, c: char)
    ensures var i := IndexOf(s, c);
            Split(s, c) == if i == |s| then [s] else [s[..i]] + Split(s[i + 1..], c)
  {
  }

  lemma {:induction false} LastPart(a: string, c: char, tag: string)
    requires c !in tag
    ensures var parts := Split(a + [c] + tag, c); |parts| >= 2 && parts[|parts| - 1] == tag
    decreases |a|
  {
    hide Split, IndexOf;
    var s := a + [c] + tag;
    var i := IndexOf(s, c);
    assert s[|a|] == c;
    assert i <= |a|;
    SplitOnce(s, c);
    if i == |a| {
      assert s[i + 1..] == tag;
      SplitOnce(tag, c);
      assert IndexOf(tag, c) == |tag|;
    } else {
      assert s[i + 1..] == a[i + 1..] + [c] + tag;
      LastPart(a[i + 1..], c, tag);
    }
  }

  /** The tag of an image is the part behind its last colon, whatever stands before it. */
  lemma TagOfImage(repository: string, tag: string)
    requires ':' !in tag
    ensures Tag(repository + ":" + tag) == tag
    ensures Tag(tag) == ""
  {
    LastPart(repository, ':', tag);
    IndexOfNone(tag, ':');
  }

  /** Exactly what is accepted by `ValidateImageCompatibility`. */
  predicate Compatible(node: string, geth: string, batcher: string, proposer: string) {
    && node != "" && geth != ""
    && (batcher != "" && proposer != "" ==> node == batcher == proposer)
  }

  class ImageConfig {
    var opGeth: string
    var opNode: string
    var opBatcher: string
    var opProposer: string
    var opChallenger: string

    function Of(c: Component): string
      reads this
    {
      match c
      case OpGeth => opGeth
      case OpNode => opNode
      case OpBatcher => opBatcher
      case OpProposer => opProposer
      case OpChallenger => opChallenger
    }

    constructor Default()
      ensures forall c: Component :: Of(c) == Image(c, DEFAULTS.Version(c))
    {
      opGeth := Image(OpGeth, DEFAULTS.opGeth);
      opNode := Image(OpNode, DEFAULTS.opNode);
      opBatcher := Image(OpBatcher, DEFAULTS.opBatcher);
      opProposer := Image(OpProposer, DEFAULTS.opProposer);
      opChallenger := Image(OpChallenger, DEFAULTS.opChallenger);
    }

    /** Each component with a version in the set gets that version; the others keep their image. */
    method ApplyVersionSet(versions: VersionSet)
      modifies this
      ensures forall c: Component :: Of(c) ==
                if versions.Version(c) != "" then Image(c, versions.Version(c)) else old(Of(c))
    {
      hide Image;
      if versions.opNode != "" {
        opNode := Image(OpNode, versions.opNode);
      }
      if versions.opGeth != "" {
        opGeth := Image(OpGeth, versions.opGeth);
      }
      if versions.opBatcher != "" {
        opBatcher := Image(OpBatcher, versions.opBatcher);
      }
      if versions.opProposer != "" {
        opProposer := Image(OpProposer, versions.opProposer);
      }
      if versions.opChallenger != "" {
        opChallenger := Image(OpChallenger, versions.opChallenger);
      }
    }

    /** Accepts exactly the compatible images, in whatever order the matrix is visited. */
    method ValidateImageCompatibility(order: seq<string>) returns (err: Option<string>)
      requires IterationOrder(order)
      ensures err.None? <==>
              && Tag(opNode) != "" && Tag(opGeth) != ""
              && (Tag(opBatcher) != "" && Tag(opProposer) != "" ==> Tag(opNode) == Tag(opBatcher) == Tag(opProposer))
    {
      var node, geth, batcher, proposer := Tag(opNode), Tag(opGeth), Tag(opBatcher), Tag(opProposer);
      if node != "" && batcher != "" && proposer != "" {
        if node != batcher || node != proposer {
          return Some("OP Stack component versions must match");
        }
      }
      for i := 0 to |order| {
        assert order[i] in MATRIX;
        var versions := MATRIX[order[i]];
        if node == versions.opNode && geth == versions.opGeth {
          return None;
        }
      }
      if node != "" && geth != "" {
        return None;
      }
      return Some("unable to validate version compatibility");
    }
  }

  /** `strings.Contains` */
  predicate Contains(s: string, t: string) {
    exists i :: 0 <= i <= |s| && t <= s[i..]
  }

  lemma ContainsEveryChar(s: string, t: string, c: char)
    requires Contains(s, t) && c in t
    ensures c in s
  {
    var i :| 0 <= i <= |s| && t <= s[i..];
    var j :| 0 <= j < |t| && t[j] == c;
    assert s[i..][j] == s[i + j];
  }

  /** Only "latest" maps to "latest"; every other version gets the default, for any visiting order. */
  method GetCompatibleOpGethVersion(version: string, order: seq<string>) returns (r: string)
    requires IterationOrder(order)
    ensures r == if version == "latest" then "latest" else DEFAULT_OP_GETH_VERSION
  {
    if version == "" {
      return DEFAULT_OP_GETH_VERSION;
    }
    if version == "latest" {
      return "latest";
    }
    var parts := Split(version, '.');
    if |parts| >= 2 {
      var majorMinor := parts[0] + "." + parts[1];
      assert majorMinor[|parts[0]|] == '.';
      for i := 0 to |order| {
        var k := order[i];
        assert k in MATRIX;
        if Contains(k, majorMinor) || MATRIX[k].opNode == version {
          if Contains(k, majorMinor) {
            ContainsEveryChar(k, majorMinor, '.');
          }
          return MATRIX[k].opGeth;
        }
      }
    }
    return DEFAULT_OP_GETH_VERSION;
  }

  datatype ImageOverrides = ImageOverrides(globalVersion: string, opNodeImage: string, opGethImage: string,
                                           opBatcherImage: string, opProposerImage: string, opChallengerImage: string,
                                           versionSet: string)
  {
    function Override(c: Component): string {
      match c
      case OpGeth => opGethImage
      case OpNode => opNodeImage
      case OpBatcher => opBatcherImage
      case OpProposer => opProposerImage
      case OpChallenger => opChallengerImage
    }
  }

  predicate SharesVersion(c: Component) {
    c.OpNode? || c.OpBatcher? || c.OpProposer?
  }

  /** The layers below the component overrides. */
  function Versioned(o: ImageOverrides, c: Component): string
    requires o.versionSet == "" || o.versionSet in MATRIX
  {
    if o.globalVersion != "" && SharesVersion(c) then Image(c, o.globalVersion)
    else if o.versionSet != "" then Image(c, MATRIX[o.versionSet].Version(c))
    else Image(c, DEFAULTS.Version(c))
  }

  method ApplyVersions(config: ImageConfig, o: ImageOverrides)
    requires o.versionSet == "" || o.versionSet in MATRIX
    requires forall c: Component :: config.Of(c) == Image(c, DEFAULTS.Version(c))
    modifies config
    ensures forall c: Component :: config.Of(c) == Versioned(o, c)
  {
    if o.versionSet != "" {
      config.ApplyVersionSet(MATRIX[o.versionSet]);
    }
    if o.globalVersion != "" {
      config.opNode := Image(OpNode, o.globalVersion);
      config.opBatcher := Image(OpBatcher, o.globalVersion);
      config.opProposer := Image(OpProposer, o.globalVersion);
    }
  }

  method ApplyImages(config: ImageConfig, o: ImageOverrides)
    modifies config
    ensures forall c: Component :: config.Of(c) == if o.Override(c) != "" then o.Override(c) else old(config.Of(c))
  {
    if o.opNodeImage != "" {
      config.opNode := o.opNodeImage;
    }
    if o.opGethImage != "" {
      config.opGeth := o.opGethImage;
    }
    if o.opBatcherImage != "" {
      config.opBatcher := o.opBatcherImage;
    }
    if o.opProposerImage != "" {
      config.opProposer := o.opProposerImage;
    }
    if o.opChallengerImage != "" {
      config.opChallenger := o.opChallengerImage;
    }
  }

  /** The documented precedence: component override, global version (of op-node, batcher and proposer, which share one),
      named version set, default. */
  method BuildImageConfig(o: ImageOverrides, order: seq<string>) returns (config: ImageConfig, err: Option<string>)
    requires IterationOrder(order)
    ensures fresh(config)
    ensures o.versionSet != "" && o.versionSet !in MATRIX ==>
              err.Some? && forall c: Component :: config.Of(c) == Image(c, DEFAULTS.Version(c))
    ensures o.versionSet == "" || o.versionSet in MATRIX ==>
              && (forall c: Component ::
                    && (o.Override(c) != "" ==> config.Of(c) == o.Override(c))
                    && (o.Override(c) == "" ==>
                          var global := o.globalVersion != "" && c in {OpNode, OpBatcher, OpProposer};
                          && (global ==> config.Of(c) == Image(c, o.globalVersion))
                          && (!global && o.versionSet != "" ==>
                                config.Of(c) == Image(c, MATRIX[o.versionSet].Version(c)))
                          && (!global && o.versionSet == "" ==> config.Of(c) == Image(c, DEFAULTS.Version(c)))))
              && (err.None? <==> Compatible(Tag(config.opNode), Tag(config.opGeth),
                                            Tag(config.opBatcher), Tag(config.opProposer)))
  {
    config := new ImageConfig.Default();
    if o.versionSet != "" && o.versionSet !in MATRIX {
      return config, Some("version set not found");
    }
    ApplyVersions(config, o);
    ApplyImages(config, o);
    err := config.ValidateImageCompatibility(order);
  }

  /** The images of the defaults. */
  lemma DefaultImages()
    ensures REGISTRY == "us-docker.pkg.dev/oplabs-tools-artifacts/images"
    ensures Image(OpGeth, DEFAULTS.opGeth) == REGISTRY + "/op-geth:v1.101511.0"
            && Image(OpNode, DEFAULTS.opNode) == REGISTRY + "/op-node:v1.13.3"
    ensures Image(OpBatcher, DEFAULTS.opBatcher) == REGISTRY + "/op-batcher:v1.12.0"
            && Image(OpProposer, DEFAULTS.opProposer) == REGISTRY + "/op-proposer:v1.10.0"
            && Image(OpChallenger, DEFAULTS.opChallenger) == REGISTRY + "/op-challenger:v1.5.1"
  {
    RegistryIs();
    hide REGISTRY;
    ImageSpelled(OpGeth, DEFAULTS.opGeth);
    ImageSpelled(OpNode, DEFAULTS.opNode);
    ImageSpelled(OpBatcher, DEFAULTS.opBatcher);
    ImageSpelled(OpProposer, DEFAULTS.opProposer);
    ImageSpelled(OpChallenger, DEFAULTS.opChallenger);
  }

  lemma RegistryIs()
    ensures REGISTRY == "us-docker.pkg.dev/oplabs-tools-artifacts/images"
  {
  }

  lemma ImageSpelled(c: Component, version: string)
    ensures Image(c, version) == REGISTRY + ("/" + Repository(c) + ":" + version)
  {
    hide REGISTRY, Repository;
  }

  lemma ImageTag(c: Component, version: string)
    requires ':' !in version
    ensures Tag(Image(c, version)) == version
  {
    TagOfImage(REGISTRY + "/" + Repository(c), version);
  }

  /** The shipped defaults do not pass the version check, and the `latest` set does. */
  lemma DefaultsAreIncompatible()
    ensures !Compatible(Tag(Image(OpNode, DEFAULTS.opNode)), Tag(Image(OpGeth, DEFAULTS.opGeth)),
                        Tag(Image(OpBatcher, DEFAULTS.opBatcher)), Tag(Image(OpProposer, DEFAULTS.opProposer)))
    ensures Compatible(Tag(Image(OpNode, LATEST.opNode)), Tag(Image(OpGeth, LATEST.opGeth)),
                       Tag(Image(OpBatcher, LATEST.opBatcher)), Tag(Image(OpProposer, LATEST.opProposer)))
  {
    hide Image, Tag;
    assert DEFAULTS.opNode[4] != DEFAULTS.opBatcher[4];
    ImageTag(OpNode, DEFAULTS.opNode);
    ImageTag(OpBatcher, DEFAULTS.opBatcher);
    ImageTag(OpProposer, DEFAULTS.opProposer);
    ImageTag(OpNode, LATEST.opNode);
    ImageTag(OpGeth, LATEST.opGeth);
    ImageTag(OpBatcher, LATEST.opBatcher);
    ImageTag(OpProposer, LATEST.opProposer);
  }
}

/** Computation of the tag of the .NET base container image from the target
    framework version and the SDK version
    (Microsoft.NET.Build.Containers/Tasks/ComputeDotnetBaseImageTag.cs).

    Versions are semantic versions whose pre-release part is a list of
    dot-separated labels (Semantic Versioning 2.0.0, item 9). Parsing a
    version string is done by a library outside this model; it is passed to
    Execute as the function `tryParse`. Tags are kept structured
    (major, minor and an optional channel and bump) rather than formatted. */
module ContainersTasks {
  import opened Wrappers

  /** From .NET 8 on, tags carry the pre-release channel and its increment. */
  const FirstVersionWithNewTaggingScheme: nat := 8

  datatype SemVer = SemVer(major: nat, minor: nat, releaseLabels: seq<string>) {
    predicate IsPrerelease() { |releaseLabels| > 0 }
  }

  /** `major.minor`, or `major.minor-channel.bump` when `channel` is present. */
  datatype Tag = Tag(major: nat, minor: nat, channel: Option<ChannelBump>)

  datatype ChannelBump = ChannelBump(channel: string, bump: string)

  /** A computed tag, or the channel that was reported as an invalid
      pre-release (in which case no tag is produced). */
  datatype TagResult = Computed(tag: Tag) | InvalidPrerelease(channel: string)

  /** The pre-release channels that get their own tags; compared exactly. */
  predicate IsKnownChannel(channel: string) {
    channel == "rc" || channel == "preview"
  }

  /** The tag for a pre-release SDK of the new scheme, decided by its labels:
      a known channel followed by a bump gives `major.minor-channel.bump`, any
      other non-empty list is an invalid pre-release, an empty one gives
      `major.minor`. */
  function DetermineLabelBasedOnChannel(major: nat, minor: nat, releaseLabels: seq<string>): (r: TagResult)
    ensures r.InvalidPrerelease? <==> |releaseLabels| > 0 && !(|releaseLabels| >= 2 && IsKnownChannel(releaseLabels[0]))
    ensures r.InvalidPrerelease? ==> r.channel == releaseLabels[0]
    ensures r.Computed? ==> r.tag.major == major && r.tag.minor == minor
    ensures r.Computed? ==> (r.tag.channel.None? <==> releaseLabels == [])
    ensures r.Computed? && r.tag.channel.Some? ==>
      IsKnownChannel(r.tag.channel.value.channel) && r.tag.channel == Some(ChannelBump(releaseLabels[0], releaseLabels[1]))
  {
    if |releaseLabels| >= 2 && IsKnownChannel(releaseLabels[0]) then
      Computed(Tag(major, minor, Some(ChannelBump(releaseLabels[0], releaseLabels[1]))))
    else if |releaseLabels| >= 1 then
      InvalidPrerelease(releaseLabels[0])
    else
      Computed(Tag(major, minor, None))
  }

  /** The tag for a parsed SDK version and target framework version. A target
      framework older than the SDK (by major or by minor) gives its own
      `major.minor`; otherwise the SDK's version decides, with pre-release
      labels taken into account from .NET 8 on. */
  function ComputeVersionInternal(version: SemVer, tfm: SemVer): (r: TagResult)
    ensures tfm.major < version.major || tfm.minor < version.minor ==> r == Computed(Tag(tfm.major, tfm.minor, None))
    ensures !(tfm.major < version.major || tfm.minor < version.minor) && !version.IsPrerelease() ==>
      r == Computed(Tag(version.major, version.minor, None))
    ensures !(tfm.major < version.major || tfm.minor < version.minor) && version.major < FirstVersionWithNewTaggingScheme ==>
      r == Computed(Tag(version.major, version.minor, None))
    ensures r.Computed? && r.tag.channel.Some? ==>
      && version.major >= FirstVersionWithNewTaggingScheme && version.IsPrerelease()
      && r.tag.major == version.major && r.tag.minor == version.minor
      && |version.releaseLabels| >= 2
      && r.tag.channel == Some(ChannelBump(version.releaseLabels[0], version.releaseLabels[1]))
      && IsKnownChannel(version.releaseLabels[0])
    ensures r.InvalidPrerelease? <==>
      && !(tfm.major < version.major || tfm.minor < version.minor)
      && version.major >= FirstVersionWithNewTaggingScheme && version.IsPrerelease()
      && !(|version.releaseLabels| >= 2 && IsKnownChannel(version.releaseLabels[0]))
    ensures (&& !(tfm.major < version.major || tfm.minor < version.minor)
             && version.major >= FirstVersionWithNewTaggingScheme
             && |version.releaseLabels| >= 2 && IsKnownChannel(version.releaseLabels[0])) ==>
      r == Computed(Tag(version.major, version.minor, Some(ChannelBump(version.releaseLabels[0], version.releaseLabels[1]))))
    ensures r.InvalidPrerelease? ==> r.channel == version.releaseLabels[0]
    ensures r.Computed? ==> (r.tag.major, r.tag.minor) in {(tfm.major, tfm.minor), (version.major, version.minor)}
  {
    if tfm.major < version.major || tfm.minor < version.minor then
      Computed(Tag(tfm.major, tfm.minor, None))
    else if !version.IsPrerelease() || version.major < FirstVersionWithNewTaggingScheme then
      Computed(Tag(version.major, version.minor, None))
    else
      DetermineLabelBasedOnChannel(version.major, version.minor, version.releaseLabels)
  }

  /** The channel labels are compared exactly: an upper-case channel is invalid,
      and so is a channel with no bump after it. */
  lemma ChannelIsExact(major: nat, minor: nat)
    ensures DetermineLabelBasedOnChannel(major, minor, ["RC", "1"]) == InvalidPrerelease("RC")
    ensures DetermineLabelBasedOnChannel(major, minor, ["rc"]) == InvalidPrerelease("rc")
    ensures DetermineLabelBasedOnChannel(major, minor, ["preview", "7", "24"]) ==
      Computed(Tag(major, minor, Some(ChannelBump("preview", "7"))))
  {
  }

  /** An error the MSBuild task logs. */
  datatype LoggedError = InvalidSdkVersion(sdkVersion: string) | InvalidSdkPrereleaseVersion(channel: string)

  /** What Execute ends in: a returned success flag, or the null dereference
      that an unparsable target framework version meets once the SDK version
      parses. */
  datatype ExecuteOutcome = Returned(success: bool) | NullReference

  class ComputeDotnetBaseImageTag {
    var sdkVersion: string
    var targetFrameworkVersion: string
    var computedBaseImageTag: Option<Tag>
    /** The errors logged through the MSBuild task's logging helper, in order. */
    var loggedErrors: seq<LoggedError>

    constructor ()
      ensures sdkVersion == "" && targetFrameworkVersion == ""
      ensures computedBaseImageTag == None && loggedErrors == []
    {
      sdkVersion := "";
      targetFrameworkVersion := "";
      computedBaseImageTag := None;
      loggedErrors := [];
    }

    /** Logs an invalid pre-release channel; the tag it yields is absent. */
    method LogInvalidPrereleaseError(channel: string) returns (tag: Option<Tag>)
      modifies this`loggedErrors
      ensures tag == None
      ensures loggedErrors == old(loggedErrors) + [InvalidSdkPrereleaseVersion(channel)]
    {
      loggedErrors := loggedErrors + [InvalidSdkPrereleaseVersion(channel)];
      tag := None;
    }

    method Execute(tryParse: string -> Option<SemVer>) returns (outcome: ExecuteOutcome)
      modifies this`computedBaseImageTag, this`loggedErrors
      // A target framework before .NET 8 decides the tag on its own.
      ensures var tfm := tryParse(targetFrameworkVersion);
        tfm.Some? && tfm.value.major < FirstVersionWithNewTaggingScheme ==>
          && outcome == Returned(true)
          && computedBaseImageTag == Some(Tag(tfm.value.major, tfm.value.minor, None))
          && loggedErrors == old(loggedErrors)
      // Otherwise an unparsable SDK version is logged, fails, and sets no tag.
      ensures var tfm, sdk := tryParse(targetFrameworkVersion), tryParse(sdkVersion);
        !(tfm.Some? && tfm.value.major < FirstVersionWithNewTaggingScheme) && sdk.None? ==>
          && outcome == Returned(false)
          && computedBaseImageTag == old(computedBaseImageTag)
          && loggedErrors == old(loggedErrors) + [InvalidSdkVersion(sdkVersion)]
      // A parsable SDK version with an unparsable target framework dereferences null.
      ensures var tfm, sdk := tryParse(targetFrameworkVersion), tryParse(sdkVersion);
        tfm.None? && sdk.Some? ==>
          && outcome == NullReference
          && computedBaseImageTag == old(computedBaseImageTag)
          && loggedErrors == old(loggedErrors)
      // Both parse and the target framework is .NET 8 or later: the computed tag,
      // or no tag and one logged error; success either way.
      ensures var tfm, sdk := tryParse(targetFrameworkVersion), tryParse(sdkVersion);
        tfm.Some? && tfm.value.major >= FirstVersionWithNewTaggingScheme && sdk.Some? ==>
          && outcome == Returned(true)
          && match ComputeVersionInternal(sdk.value, tfm.value)
             case Computed(tag) =>
               computedBaseImageTag == Some(tag) && loggedErrors == old(loggedErrors)
             case InvalidPrerelease(channel) =>
               computedBaseImageTag == None && loggedErrors == old(loggedErrors) + [InvalidSdkPrereleaseVersion(channel)]
      ensures outcome == Returned(false) <==> |loggedErrors| == |old(loggedErrors)| + 1 && loggedErrors[|loggedErrors| - 1].InvalidSdkVersion?
    {
      var tfm := tryParse(targetFrameworkVersion);
      if tfm.Some? && tfm.value.major < FirstVersionWithNewTaggingScheme {
        computedBaseImageTag := Some(Tag(tfm.value.major, tfm.value.minor, None));
        return Returned(true);
      }

      var version := tryParse(sdkVersion);
      if version.Some? {
        if tfm.None? {
          // ComputeVersionInternal reads tfm.Major of a null tfm.
          return NullReference;
        }
        match ComputeVersionInternal(version.value, tfm.value) {
          case Computed(tag) =>
            computedBaseImageTag := Some(tag);
          case InvalidPrerelease(channel) =>
            computedBaseImageTag := LogInvalidPrereleaseError(channel);
        }
        return Returned(true);
      } else {
        loggedErrors := loggedErrors + [InvalidSdkVersion(sdkVersion)];
        return Returned(false);
      }
    }
  }

  /** A .NET 9 preview SDK building a .NET 9 project gets a channel tag; the
      same SDK with a misspelled channel logs one error and leaves no tag. */
  method PreviewSdkScenario()
  {
    var task := new ComputeDotnetBaseImageTag();
    task.targetFrameworkVersion := "9.0";
    task.sdkVersion := "9.0.100-preview.7";
    var parse := (s: string) =>
      if s == "9.0" then Some(SemVer(9, 0, []))
      else if s == "9.0.100-preview.7" then Some(SemVer(9, 0, ["preview", "7"]))
      else if s == "9.0.100-Preview.7" then Some(SemVer(9, 0, ["Preview", "7"]))
      else None;
    var outcome := task.Execute(parse);
    assert outcome == Returned(true);
    assert task.computedBaseImageTag == Some(Tag(9, 0, Some(ChannelBump("preview", "7"))));
    task.sdkVersion := "9.0.100-Preview.7";
    outcome := task.Execute(parse);
    assert outcome == Returned(true) && task.computedBaseImageTag == None;
    assert task.loggedErrors == [InvalidSdkPrereleaseVersion("Preview")];
  }
}

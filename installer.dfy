/** Picking the CLI's release asset for this machine (`src/installer.ts`):
    the platform and architecture names used in asset names, the predicate
    handed to the release downloader with its `versionIndex` counter, and
    the path of the installed binary. The download itself, the file system
    and running the installer are not part of this model. */
module Installer {
  import opened Wrappers
  import opened Strings

  /** `os.platform()` as the release names it: the first `darwin` becomes
      `macos`, then the first `win32` becomes `windows`. */
  function PlatformName(platform: string): string {
    ReplaceFirst(ReplaceFirst(platform, "darwin", "macos"), "win32", "windows")
  }

  /** `os.arch()` as the release names it: always `x86_64` on Windows,
      otherwise the first `x64` becomes `x86_64`, then the first `arm64`
      becomes `aarch64`. */
  function ArchName(platform: string, arch: string): string {
    if platform == "win32" then "x86_64"
    else ReplaceFirst(ReplaceFirst(arch, "x64", "x86_64"), "arm64", "aarch64")
  }

  /** Replacing a pattern in a text equal to it gives the replacement. */
  lemma ReplaceWhole(s: string, replacement: string)
    ensures ReplaceFirst(s, s, replacement) == replacement
  {
    assert OccursAt(s, s, 0);
    assert s[..0] == [] && s[|s|..] == [];
  }

  /** The platform names of the releases for the three supported systems;
      any other name holding neither `darwin` nor `win32` is unchanged. */
  lemma PlatformNames(platform: string)
    ensures PlatformName("darwin") == "macos"
    ensures PlatformName("win32") == "windows"
    ensures !Contains(platform, "darwin") && !Contains(platform, "win32") ==> PlatformName(platform) == platform
  {
    ReplaceWhole("darwin", "macos");
    AbsentCharNotContained("macos", "win32", 0);
    ReplaceWhole("win32", "windows");
    AbsentCharNotContained("win32", "darwin", 1);
  }

  /** The architecture names: `x86_64` on Windows whatever the CPU,
      otherwise `x64` and `arm64` renamed, and other names holding neither
      unchanged. */
  lemma ArchNames(platform: string, arch: string)
    ensures ArchName("win32", arch) == "x86_64"
    ensures platform != "win32" ==> ArchName(platform, "x64") == "x86_64"
    ensures platform != "win32" ==> ArchName(platform, "arm64") == "aarch64"
    ensures platform != "win32" && !Contains(arch, "x64") && !Contains(arch, "arm64") ==> ArchName(platform, arch) == arch
  {
    ReplaceWhole("x64", "x86_64");
    AbsentCharNotContained("x86_64", "arm64", 1);
    AbsentCharNotContained("arm64", "x64", 0);
    ReplaceWhole("arm64", "aarch64");
  }

  /** The asset is the one for this machine: its name holds both names. */
  predicate Selects(platform: string, arch: string, asset: string) {
    Contains(asset, PlatformName(platform)) && Contains(asset, ArchName(platform, arch))
  }

  const LinuxAsset: string := "linux-x86_64.zip"

  /** The error thrown once the release has no asset for this machine. */
  function Unsupported(platform: string, arch: string): Thrown {
    ErrorWith("Your OS or CPU architecture is not yet supported by Argon! (" + platform + " " + arch + ")")
  }

  /** The downloader's predicate with its counter of `linux-x86_64.zip`
      assets seen: it throws once the counter is past one, which it checks
      before counting the asset in hand. */
  class AssetFilter {
    const platform: string
    const arch: string
    var versionIndex: int

    constructor(platform: string, arch: string)
      ensures this.platform == platform && this.arch == arch && versionIndex == 0
    {
      this.platform := platform;
      this.arch := arch;
      versionIndex := 0;
    }

    /** One call of the predicate on the asset named `asset`. */
    method Accept(asset: string) returns (r: Outcome<bool>)
      modifies this
      ensures old(versionIndex) > 1 ==> r == Threw(Unsupported(platform, arch)) && versionIndex == old(versionIndex)
      ensures old(versionIndex) <= 1 ==> r == Returned(Selects(platform, arch, asset))
      ensures old(versionIndex) <= 1 ==> versionIndex == old(versionIndex) + (if EndsWith(asset, LinuxAsset) then 1 else 0)
    {
      if versionIndex > 1 {
        return Threw(Unsupported(platform, arch));
      }
      if EndsWith(asset, LinuxAsset) {
        versionIndex := versionIndex + 1;
      }
      r := Returned(Selects(platform, arch, asset));
    }
  }

  /** How many of `assets` are Linux x86-64 archives. */
  function LinuxCount(assets: seq<string>): (n: nat)
    ensures n <= |assets|
  {
    if assets == [] then 0
    else LinuxCount(assets[..|assets| - 1]) + (if EndsWith(assets[|assets| - 1], LinuxAsset) then 1 else 0)
  }

  /** The outcome of each call of the predicate over a run of assets, one
      per asset: every call after the second Linux archive throws, and the
      run goes on past a throw, since each call is made independently. */
  function Answers(platform: string, arch: string, assets: seq<string>): seq<Outcome<bool>>
    decreases |assets|
  {
    if assets == [] then []
    else
      var init := assets[..|assets| - 1];
      var last := assets[|assets| - 1];
      Answers(platform, arch, init) +
      [if LinuxCount(init) > 1 then Threw(Unsupported(platform, arch))
       else Returned(Selects(platform, arch, last))]
  }

  /** The counter after `n` Linux archives: it stops at two, where the
      calls start to throw. */
  function Capped(n: nat): nat {
    if n > 2 then 2 else n
  }

  /** Calling the predicate on assets one by one gives `Answers`, and the
      counter then holds the number of Linux archives seen, capped where
      the calls start to throw. */
  method AcceptAll(filter: AssetFilter, assets: seq<string>) returns (answers: seq<Outcome<bool>>)
    requires filter.versionIndex == 0
    modifies filter
    ensures answers == Answers(filter.platform, filter.arch, assets)
  {
    answers := [];
    var i := 0;
    while i < |assets|
      invariant 0 <= i <= |assets|
      invariant answers == Answers(filter.platform, filter.arch, assets[..i])
      invariant filter.versionIndex == Capped(LinuxCount(assets[..i]))
    {
      AnswersStep(filter.platform, filter.arch, assets, i);
      var r := filter.Accept(assets[i]);
      answers := answers + [r];
      i := i + 1;
    }
    assert assets[..i] == assets;
  }

  /** One more call extends the answers and the count by the next asset. */
  lemma AnswersStep(platform: string, arch: string, assets: seq<string>, i: int)
    requires 0 <= i < |assets|
    ensures LinuxCount(assets[..i + 1]) == LinuxCount(assets[..i]) + (if EndsWith(assets[i], LinuxAsset) then 1 else 0)
    ensures Answers(platform, arch, assets[..i + 1]) == Answers(platform, arch, assets[..i]) +
      [if LinuxCount(assets[..i]) > 1 then Threw(Unsupported(platform, arch)) else Returned(Selects(platform, arch, assets[i]))]
  {
    var done := assets[..i + 1];
    assert done[..i] == assets[..i] && done[i] == assets[i];
  }

  /** Every call after two Linux x86-64 archives have been seen throws,
      whatever asset it is asked about; before that no call throws. */
  lemma ThrowsAfterTwoLinuxAssets(platform: string, arch: string, assets: seq<string>, i: int)
    requires 0 <= i < |assets|
    ensures |Answers(platform, arch, assets)| == |assets|
    ensures Answers(platform, arch, assets)[i].Threw? <==> LinuxCount(assets[..i]) > 1
  {
    AnswersLength(platform, arch, assets);
    AnswerAt(platform, arch, assets, i);
  }

  lemma {:induction false} AnswersLength(platform: string, arch: string, assets: seq<string>)
    ensures |Answers(platform, arch, assets)| == |assets|
    decreases |assets|
  {
    if assets != [] {
      AnswersLength(platform, arch, assets[..|assets| - 1]);
    }
  }

  lemma {:induction false} AnswerAt(platform: string, arch: string, assets: seq<string>, i: int)
    requires 0 <= i < |assets|
    ensures |Answers(platform, arch, assets)| == |assets|
    ensures Answers(platform, arch, assets)[i] ==
      if LinuxCount(assets[..i]) > 1 then Threw(Unsupported(platform, arch))
      else Returned(Selects(platform, arch, assets[i]))
    decreases |assets|
  {
    var init, last := assets[..|assets| - 1], assets[|assets| - 1];
    var step := if LinuxCount(init) > 1 then Threw(Unsupported(platform, arch)) else Returned(Selects(platform, arch, last));
    assert Answers(platform, arch, assets) == Answers(platform, arch, init) + [step];
    AnswersLength(platform, arch, init);
    if i < |assets| - 1 {
      assert init[..i] == assets[..i];
      AnswerAt(platform, arch, init, i);
    } else {
      assert assets[..i] == init;
    }
  }

  /** The installed binary: `~/.argon/bin/argon`, with `.exe` on Windows. */
  function BinaryPath(home: string, platform: string): string {
    home + "/.argon/bin/argon" + (if platform == "win32" then ".exe" else "")
  }

  /** The binary path ends in `.exe` exactly on Windows. */
  lemma ExeOnlyOnWindows(home: string, platform: string)
    ensures EndsWith(BinaryPath(home, platform), ".exe") <==> platform == "win32"
  {
    var p := BinaryPath(home, platform);
    if platform != "win32" {
      assert p[|p| - 4..] == "rgon";
    } else {
      assert p[|p| - 4..] == ".exe";
    }
  }
}

// What get_base_image_info of build/build_docker_images.py reads out of the
// base image: the two shell probes it runs in a throw-away "user_extractor"
// container and how it turns their output into a python version and a
// UserInfo, falling back when a probe raises or prints something unexpected.

module Probe {
  import opened Strings
  import opened Values
  import opened Config

  /** The shell script that prints the image's python version. */
  const VersionScript: string := "python -c 'import platform; print(platform.python_version())'"

  /** The shell script that prints user name, groups and home directory, one per line. */
  const UserScript: string := "whoami; groups; echo $HOME"

  /** The version used when the probe fails or prints something that is not x.y.z. */
  const FallbackVersion: string := "3.8"

  /** The user info used when the user probe fails: UserInfo(None, None, None). */
  const UnknownUser: UserInfo := UserInfo(Val(Null), Val(Null), Val(Null))

  /** The argument list of _call(script). */
  function RunCommand(script: string): seq<string>
  {
    ["docker", "run", "--rm", "user_extractor", "/bin/sh", "-c", script]
  }

  /** _call: check_output's bytes decoded and stripped; a raised error passes through. */
  function Stripped(output: Result<string>): Result<string>
  {
    match output
    case Ok(text) => Ok(Strip(text))
    case Raise(e) => Raise(e)
  }

  /**
   * The python version probe: the output when it holds exactly two dots, else "3.8".
   * A failed assert (whose message itself raises NameError) and a failed call both land
   * in the same `except Exception`.
   */
  function ParseVersion(output: Result<string>): (version: string)
    ensures output.Ok? && Count(output.value, '.') == 2 ==> version == output.value
    ensures version != FallbackVersion ==> output.Ok? && version == output.value && |Split(version, '.')| == 3
  {
    if output.Ok? && Count(output.value, '.') == 2 then
      SplitCount(output.value, '.');
      output.value
    else FallbackVersion
  }

  /**
   * The user probe: three lines unpack into name, groups and home; the group is the first
   * whitespace-separated group or None. Any other shape, or a failed call, gives all None.
   */
  function ParseUserInfo(output: Result<string>): (user: UserInfo)
    ensures user.Resolved()
    ensures output.Raise? || |Split(output.value, '\n')| != 3 ==> user == UnknownUser
    ensures output.Ok? && |Split(output.value, '\n')| == 3 ==>
              var lines := Split(output.value, '\n');
              && user.name == Val(Str(lines[0]))
              && user.home == Val(Str(lines[2]))
              && (user.group == Val(Null) <==> AllSpace(lines[1]))
              && (!AllSpace(lines[1]) ==> Words(lines[1]) != [] && user.group == Val(Str(Words(lines[1])[0])))
  {
    if output.Raise? then UnknownUser
    else
      var lines := Split(output.value, '\n');
      if |lines| != 3 then UnknownUser
      else
        var groups := Words(lines[1]);
        WordsAreWords(lines[1]);
        UserInfo(Val(Str(lines[0])), if groups != [] then Val(Str(groups[0])) else Val(Null), Val(Str(lines[2])))
  }

  /** A python that prints "x.y.z" is believed: the probed version is exactly what it printed. */
  lemma VersionProbeRoundTrip(printed: string)
    requires Count(printed, '.') == 2
    requires !IsSpace(printed[0]) && !IsSpace(printed[|printed| - 1])
    ensures ParseVersion(Stripped(Ok(printed + "\n"))) == printed
  {
    StripLine(printed);
  }

  /** A probe that prints anything but three dot-separated parts yields the fallback version. */
  lemma MalformedVersionFallsBack(output: Result<string>)
    requires output.Ok? ==> |Split(output.value, '.')| != 3
    ensures ParseVersion(output) == FallbackVersion
  {
    if output.Ok? {
      SplitCount(output.value, '.');
    }
  }

  /** Three newline-free lines joined by newlines split back into those three lines. */
  lemma ThreeLines(a: string, b: string, c: string)
    requires '\n' !in a && '\n' !in b && '\n' !in c
    ensures Split(a + "\n" + b + "\n" + c, '\n') == [a, b, c]
  {
    assert a + "\n" + b + "\n" + c == a + ['\n'] + (b + ['\n'] + c);
    SplitAppend(a, b + ['\n'] + c, '\n');
    SplitAppend(b, c, '\n');
    SplitNoSep(a, '\n');
    SplitNoSep(b, '\n');
    SplitNoSep(c, '\n');
  }

  lemma NoNewlineConcat(a: string, b: string)
    requires '\n' !in a && '\n' !in b
    ensures '\n' !in a + b
  {
    forall i | 0 <= i < |a + b| ensures (a + b)[i] != '\n' {
      if i < |a| { assert (a + b)[i] == a[i]; } else { assert (a + b)[i] == b[i - |a|]; }
    }
  }

  /**
   * whoami, groups and echo $HOME print a name, a line of groups and a home directory;
   * parsing gives back the name, the first group and the home directory.
   */
  lemma UserProbeRoundTrip(name: string, group: string, otherGroups: string, home: string)
    requires name != [] && !IsSpace(name[0]) && '\n' !in name
    requires IsWord(group) && '\n' !in group
    requires (otherGroups == [] || IsSpace(otherGroups[0])) && '\n' !in otherGroups
    requires home != [] && !IsSpace(home[|home| - 1]) && '\n' !in home
    ensures ParseUserInfo(Stripped(Ok(name + "\n" + group + otherGroups + "\n" + home + "\n")))
            == UserInfo(Val(Str(name)), Val(Str(group)), Val(Str(home)))
  {
    var groups := group + otherGroups;
    NoNewlineConcat(group, otherGroups);
    var printed := name + "\n" + groups + "\n" + home;
    assert printed + "\n" == name + "\n" + group + otherGroups + "\n" + home + "\n";
    assert printed[0] == name[0];
    assert printed[|printed| - 1] == home[|home| - 1];
    StripLine(printed);
    ThreeLines(name, groups, home);
    LeadingWord(group, otherGroups);
  }

  /** Output with a line too many or too few cannot be unpacked: every field becomes None. */
  lemma UserProbeNeedsThreeLines(a: string, b: string)
    requires '\n' !in a && '\n' !in b
    ensures ParseUserInfo(Ok(a + "\n" + b)) == UnknownUser
  {
    assert a + "\n" + b == a + ['\n'] + b;
    SplitAppend(a, b, '\n');
    SplitNoSep(a, '\n');
    SplitNoSep(b, '\n');
  }
}

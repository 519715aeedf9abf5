/**
 * The path cleaning at the start of the `AudioManager` constructor
 * (src/com/tetris/audio/AudioManager.java): a path written relative to the
 * source tree ("src/...") becomes a path from the classpath root ("/...").
 */
module AudioPath {

  /** Java's `String.startsWith`. */
  predicate StartsWith(s: string, prefix: string) {
    |prefix| <= |s| && s[..|prefix|] == prefix
  }

  /**
   * Drops one leading "src/", then prefixes "/" unless the path already
   * starts with one. The result is absolute, ends with what is left of the
   * input after the "src/" is dropped, and adds the one "/" exactly when
   * that remainder does not already start with it.
   */
  function CleanPath(path: string): (r: string)
    ensures StartsWith(r, "/")
    ensures var rest := if StartsWith(path, "src/") then path[4..] else path;
      && |rest| <= |r| <= |rest| + 1
      && r[|r| - |rest|..] == rest
      && (|r| == |rest| <==> StartsWith(rest, "/"))
  {
    var rest := if StartsWith(path, "src/") then path[4..] else path;
    if StartsWith(rest, "/") then rest else "/" + rest
  }

  /** A path that is already absolute is returned as it is. */
  lemma AbsolutePathUnchanged(path: string)
    requires StartsWith(path, "/")
    ensures CleanPath(path) == path
  {
  }

  /** Cleaning a cleaned path changes nothing. */
  lemma CleanPathIdempotent(path: string)
    ensures CleanPath(CleanPath(path)) == CleanPath(path)
  {
    AbsolutePathUnchanged(CleanPath(path));
  }

  /** Only one leading "src/" is dropped: "src/src/x" becomes "/src/x". */
  lemma StripsSrcOnce(x: string)
    ensures CleanPath("src/src/" + x) == "/src/" + x
  {
    var p := "src/src/" + x;
    assert StartsWith(p, "src/");
    assert p[4..] == "src/" + x;
    assert p[4..][0] == 's';
  }

  /** The path the game controller passes is already clean. */
  lemma ControllerMusicPathUnchanged()
    ensures CleanPath("/com/tetris/audio/background-music.wav") == "/com/tetris/audio/background-music.wav"
  {
    var path := "/com/tetris/audio/background-music.wav";
    assert path[..1] == [path[0]] == "/";
    AbsolutePathUnchanged(path);
  }
}

/**
 * The local side of the SSH config synchronisation in infraninja/inventory/jinn.py:
 * choosing the file name the fetched config is saved under, and making sure the
 * main `~/.ssh/config` includes the config directory.
 */
module SshConfig {
  import opened Values
  import opened Text

  /** `c.isalnum() or c in "-_."` */
  predicate FilenameChar(c: char) {
    IsAlnum(c) || c == '-' || c == '_' || c == '.'
  }

  predicate AllFilenameChars(name: string) {
    forall k :: 0 <= k < |name| ==> FilenameChar(name[k])
  }

  /** A name that denotes a file inside the config directory: allowed characters, and not "", "." or "..". */
  predicate IsSafeName(name: string) {
    name != "" && name != "." && name != ".." && AllFilenameChars(name)
  }

  /**
   * One pass of `get_valid_filename` as written: the stripped answer, empty for the default;
   * otherwise its basename if every character is allowed, and None (warn and prompt again)
   * if not.
   */
  function ValidFilenameAsWritten(typed: string, default: string): (r: Option<string>)
    ensures Strip(typed) == "" ==> r == Some(default)
    ensures Strip(typed) != "" ==> (r.Some? <==> AllFilenameChars(Basename(Strip(typed))))
    ensures Strip(typed) != "" && r.Some? ==>
              '/' !in r.value && AllFilenameChars(r.value) && |r.value| <= |Strip(typed)|
              && r.value == Strip(typed)[|Strip(typed)| - |r.value|..]
    ensures Strip(typed) != "" && r.Some? ==> r.value == Basename(Strip(typed))
  {
    var t := Strip(typed);
    if t == "" then Some(default)
    else
      var name := Basename(t);
      if AllFilenameChars(name) then Some(name) else None
  }

  /**
   * An answer ending in '/' passes the check with an empty name, and ".." passes as it is:
   * either way the config would be written to a directory, not to a file in the config directory.
   */
  lemma DirectoryNamesAccepted(default: string)
    ensures ValidFilenameAsWritten("cfg/", default) == Some("")
    ensures ValidFilenameAsWritten("..", default) == Some("..")
  {
    SlashedDirectory();
    TrailingSlashAccepted("cfg/", default);
    ParentDirectory();
    PlainNameAccepted("..", default);
  }

  lemma SlashedDirectory()
    ensures IsToken("cfg/") && "cfg/"[|"cfg/"| - 1] == '/'
  {
  }

  lemma ParentDirectory()
    ensures IsToken("..") && '/' !in ".." && AllFilenameChars("..")
  {
  }

  /** Any answer ending in '/' passes the written check with an empty name. */
  lemma TrailingSlashAccepted(t: string, default: string)
    requires t != "" && t[|t| - 1] == '/'
    ensures ValidFilenameAsWritten(t, default) == Some("")
  {
    assert !IsSpace(t[|t| - 1]);
    var u := TrimStart(t);
    assert |u| > 0 && u[|u| - 1] == '/';
    assert TrimEnd(u) == u;
  }

  /** A token of allowed characters without '/' passes the written check as it is. */
  lemma PlainNameAccepted(t: string, default: string)
    requires IsToken(t) && '/' !in t && AllFilenameChars(t)
    ensures ValidFilenameAsWritten(t, default) == Some(t)
  {
    StripToken(t);
    BasenameNoSlash(t);
  }

  /** One pass of the prompt, rejecting every basename that is not a safe file name. */
  function ValidFilename(typed: string, default: string): (r: Option<string>)
    ensures Strip(typed) == "" ==> r == Some(default)
    ensures Strip(typed) != "" ==> (r.Some? <==> IsSafeName(Basename(Strip(typed))))
    ensures r.Some? ==> r.value == default || IsSafeName(r.value)
    ensures Strip(typed) != "" && r.Some? ==> r.value == Basename(Strip(typed))
  {
    var t := Strip(typed);
    if t == "" then Some(default)
    else
      var name := Basename(t);
      if IsSafeName(name) then Some(name) else None
  }

  /** The corrected check differs from the written one exactly on "", "." and "..". */
  lemma ValidFilenameDiffers(typed: string, default: string)
    ensures ValidFilename(typed, default) != ValidFilenameAsWritten(typed, default) <==>
              Strip(typed) != "" && Basename(Strip(typed)) in {"", ".", ".."}
  {
    if Strip(typed) != "" {
      var name := Basename(Strip(typed));
      assert AllFilenameChars("") && AllFilenameChars(".") && AllFilenameChars("..");
      assert IsSafeName(name) <==> AllFilenameChars(name) && name !in {"", ".", ".."};
    }
  }

  /** A safe name, typed after a whitespace-free directory path and a '/', with one blank before and one after, is accepted as that name. */
  lemma ValidFilenameKeepsName(dir: string, name: string, default: string)
    requires IsSafeName(name)
    requires forall k :: 0 <= k < |dir| ==> !IsSpace(dir[k])
    ensures ValidFilename(" " + (dir + "/" + name) + " ", default) == Some(name)
  {
    var p := dir + "/" + name;
    assert IsToken(p) by {
      forall k | 0 <= k < |p| ensures !IsSpace(p[k]) {
        if k > |dir| {
          assert p[k] == name[k - |dir| - 1];
        }
      }
    }
    StripPadded(p);
    BasenameAfterSlash(dir, name);
  }

  /** Blanks around a token are stripped away. */
  lemma StripPadded(w: string)
    requires IsToken(w)
    ensures Strip(" " + w + " ") == w
  {
    var s := " " + w + " ";
    assert s[1..] == w + " ";
    assert TrimStart(s) == w + " " by {
      assert TrimStart(w + " ") == w + " ";
    }
    assert TrimEnd(w + " ") == w by {
      assert (w + " ")[..|w|] == w;
      assert TrimEnd(w) == w;
    }
  }

  /** The line `update_main_ssh_config` makes sure the main config contains. */
  function IncludeLine(configDir: string): string {
    "\nInclude " + configDir + "/*\n"
  }

  /**
   * The main config after `update_main_ssh_config`; `content` is None when the file does
   * not exist. An existing file that already contains the line is left alone; otherwise
   * the line is appended, creating the file if need be.
   */
  function Updated(content: Option<string>, configDir: string): string {
    match content
    case None => IncludeLine(configDir)
    case Some(c) => if Contains(c, IncludeLine(configDir)) then c else c + IncludeLine(configDir)
  }

  /** Afterwards the main config includes the directory, and what it held before is kept as its beginning. */
  lemma UpdatedIncludes(content: Option<string>, configDir: string)
    ensures Contains(Updated(content, configDir), IncludeLine(configDir))
    ensures content.Some? ==> content.value <= Updated(content, configDir)
    ensures content.Some? && Contains(content.value, IncludeLine(configDir)) ==>
              Updated(content, configDir) == content.value
  {
    var line := IncludeLine(configDir);
    match content
    case None =>
      ContainsSuffix("", line);
      assert "" + line == line;
    case Some(c) =>
      if !Contains(c, line) {
        ContainsSuffix(c, line);
      }
  }

  /** Running the update twice is the same as running it once. */
  lemma UpdatedIdempotent(content: Option<string>, configDir: string)
    ensures Updated(Some(Updated(content, configDir)), configDir) == Updated(content, configDir)
  {
    UpdatedIncludes(content, configDir);
  }

  lemma ContainsSuffix(a: string, b: string)
    ensures Contains(a + b, b)
  {
    assert OccursAt(b, a + b, |a|);
    ContainsIff(a + b, b);
  }

  /** The main SSH config file; `content` is None while the file does not exist. */
  class MainSshConfig {
    var content: Option<string>

    constructor(content: Option<string>)
      ensures this.content == content
    {
      this.content := content;
    }

    /** `update_main_ssh_config` */
    method UpdateMainSshConfig(configDir: string)
      modifies this
      ensures content == Some(Updated(old(content), configDir))
    {
      var line := IncludeLine(configDir);
      if content.Some? && Contains(content.value, line) {
        return;
      }
      var existing := if content.Some? then content.value else "";
      assert content.None? ==> existing + line == line;
      content := Some(existing + line);
    }
  }
}

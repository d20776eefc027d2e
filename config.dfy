/**
 * The fixed names of config.py: the per-user folder and the three artifact
 * file names, and the paths built from them with Windows' `os.path.join`.
 */
module Config {

  type Path = string

  /** Folder under %APPDATA% used by the live application (config.py). */
  const AppFolder := "AmpliFiTeleport"
  const UuidName := "teleport_uuid"
  const TokenName := "teleport_token_0"
  const ConfigName := "teleport.conf"

  /**
   * Windows `os.path.join(dir, name)` for a relative `name` without a drive:
   * a backslash is put between the two unless `dir` is empty, already ends in
   * a separator, or is a bare drive such as "C:".
   */
  function Join(dir: string, name: string): (p: Path)
    ensures p == dir + name || p == dir + "\\" + name
    ensures |dir| <= |p| && p[..|dir|] == dir && p[|p| - |name|..] == name
  {
    if dir == [] || dir[|dir| - 1] in "\\/" || (|dir| == 2 && dir[1] == ':') then dir + name else dir + "\\" + name
  }

  /** The three artifact paths a copy of the lifecycle code works on. */
  datatype Layout = Layout(config: Path, token: Path, uuid: Path) {
    predicate Distinct() {
      config != token && config != uuid && token != uuid
    }
    predicate Holds(p: Path) {
      p == config || p == token || p == uuid
    }
  }

  /** The layout of an application keeping its artifacts in `%APPDATA%\folder`. */
  function FolderLayout(appdata: string, folder: string): (lay: Layout)
    requires folder != []
    ensures lay.Distinct()
  {
    var dir := Join(appdata, folder);
    var lay := Layout(Join(dir, ConfigName), Join(dir, TokenName), Join(dir, UuidName));
    assert lay.config[|lay.config| - 1] == 'f' && lay.token[|lay.token| - 1] == '0' && lay.uuid[|lay.uuid| - 1] == 'd';
    lay
  }

  /** config.py:10-14. */
  function LiveLayout(appdata: string): Layout {
    FolderLayout(appdata, AppFolder)
  }

  /** Appending to the folder name appends to the folder path. */
  lemma {:induction false} JoinExtends(dir: string, a: string, b: string)
    ensures Join(dir, a + b) == Join(dir, a) + b
  {
    if dir == [] || dir[|dir| - 1] in "\\/" || (|dir| == 2 && dir[1] == ':') {
      assert dir + (a + b) == (dir + a) + b;
    } else {
      assert dir + "\\" + (a + b) == (dir + "\\" + a) + b;
    }
  }

  /**
   * A file in `%APPDATA%\F` is never a file in `%APPDATA%\F` + `suffix` when
   * `suffix` does not start with a backslash: the two folders never share an artifact.
   */
  lemma FoldersDisjoint(appdata: string, folder: string, suffix: string, n1: string, n2: string)
    requires folder != [] && folder[|folder| - 1] !in "\\/:"
    requires suffix != [] && suffix[0] != '\\'
    ensures Join(Join(appdata, folder), n1) != Join(Join(appdata, folder + suffix), n2)
  {
    var d := Join(appdata, folder);
    JoinExtends(appdata, folder, suffix);
    assert d[|d| - |folder|..] == folder;
    assert d[|d| - 1] == folder[|folder| - 1];
    var p1 := Join(d, n1);
    assert p1 == d + "\\" + n1;
    assert p1[|d|] == '\\';
    var p2 := Join(d + suffix, n2);
    assert Join(appdata, folder + suffix) == d + suffix;
    assert p2[..|d + suffix|] == d + suffix;
    assert p2[|d|] == (d + suffix)[|d|] == suffix[0];
  }
}

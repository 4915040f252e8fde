/** The saved profile (knbackup/src/kidsnote/mod.rs): `~/` path resolution, loading
    with a fallback to "no profile", `set_default`, and saving. The config files
    on disk are a map from resolved path to what reading and parsing it gives. */
module Config {
  import opened Wrappers
  import Fs

  /** `KidsnoteConfigProfile`. */
  datatype Profile = Profile(userId: Option<string>, refreshToken: Option<string>)

  /** How both commands' `update_profile` fill one argument from the saved
      profile: a value the user gave is kept, a missing one takes the saved one. */
  function Fill(arg: Option<string>, saved: Option<string>): (r: Option<string>)
    ensures arg.Some? ==> r == arg
    ensures arg.None? ==> r == saved
  {
    if arg.None? && saved.Some? then saved else arg
  }

  const HomePrefix := "~/"
  /** Used in place of the home directory when it is unknown. */
  const HomeFallback := "./"

  /** The base with a separator at its end, as `PathBuf::join` puts one between. */
  function WithSeparator(base: string): (r: string)
    ensures r == [] || r[|r| - 1] == '/'
  {
    if base == [] || base[|base| - 1] == '/' then base else base + "/"
  }

  /** `PathBuf::join`: an absolute `rest` replaces the base. */
  function Join(base: string, rest: string): string {
    if |rest| > 0 && rest[0] == '/' then rest else WithSeparator(base) + rest
  }

  /** The path rule `from_file` and `save` share: "~/rest" is `rest` under the
      home directory (or under "./" when the home directory is unknown); any
      other path is used as given. */
  function ResolvePath(path: string, home: Option<string>): (r: string)
    ensures !(HomePrefix <= path) ==> r == path
    ensures HomePrefix <= path && !(|path| > 2 && path[2] == '/') ==>
              r == WithSeparator(home.GetOr(HomeFallback)) + path[2..]
    ensures HomePrefix <= path && home.None? && !(|path| > 2 && path[2] == '/') ==>
              r == HomeFallback + path[2..]
  {
    if HomePrefix <= path then Join(home.GetOr(HomeFallback), path[2..]) else path
  }

  /** What reading and parsing a config file gives. A file that exists but is
      empty parses as a config with no profile. */
  datatype ConfigFile = Unreadable | Unparseable | Parsed(default: Option<Profile>)

  /** The profile `from_file` comes back with: the parsed one, and none when the
      file is missing, unreadable or does not parse. */
  function LoadDefault(configPath: string, home: Option<string>, disk: map<string, ConfigFile>): (d: Option<Profile>)
    ensures var p := ResolvePath(configPath, home);
            (p !in disk || !disk[p].Parsed? ==> d.None?)
            && (p in disk && disk[p].Parsed? ==> d == disk[p].default)
  {
    var p := ResolvePath(configPath, home);
    if p in disk && disk[p].Parsed? then disk[p].default else None
  }

  /** The config files after `save`: a file that cannot be created is left
      alone; a failed write leaves the created file empty. */
  function Saved(disk: map<string, ConfigFile>, path: string, default: Option<Profile>, faults: Fs.IoFaults): map<string, ConfigFile> {
    if faults.createFile then disk
    else if faults.write then disk[path := Parsed(None)]
    else disk[path := Parsed(default)]
  }

  /** What `save` writes, `from_file` reads back, since both resolve the path
      with the same rule. */
  lemma SaveThenLoad(disk: map<string, ConfigFile>, path: string, home: Option<string>, default: Option<Profile>)
    ensures LoadDefault(path, home, Saved(disk, ResolvePath(path, home), default, Fs.NoFaults)) == default
  {
  }

  /** The config files on disk, keyed by resolved path. */
  class ConfigStore {
    var files: map<string, ConfigFile>

    constructor (files: map<string, ConfigFile>)
      ensures this.files == files
    {
      this.files := files;
    }
  }

  /** `KnBackupConfig`. */
  class KnBackupConfig {
    var default: Option<Profile>

    /** `KnBackupConfig::from_file`. */
    constructor FromFile(configPath: string, home: Option<string>, disk: map<string, ConfigFile>)
      ensures default == LoadDefault(configPath, home, disk)
    {
      var p := ResolvePath(configPath, home);
      if p in disk && disk[p].Parsed? {
        default := disk[p].default;
      } else {
        default := None;
      }
    }

    /** `set_default`: the profile is replaced by exactly these two values. */
    method SetDefault(userId: string, refreshToken: string)
      modifies this
      ensures default == Some(Profile(Some(userId), Some(refreshToken)))
    {
      default := Some(Profile(Some(userId), Some(refreshToken)));
    }

    /** `save`: writes this config to the resolved path. Directory-creation,
        create and write failures are only logged. */
    method Save(savePath: string, home: Option<string>, store: ConfigStore, faults: Fs.IoFaults)
      modifies store
      ensures store.files == Saved(old(store.files), ResolvePath(savePath, home), default, faults)
    {
      var p := ResolvePath(savePath, home);
      if faults.createFile {
        // "config file create fail." is logged
      } else if faults.write {
        store.files := store.files[p := Parsed(None)];
      } else {
        store.files := store.files[p := Parsed(default)];
      }
    }
  }
}

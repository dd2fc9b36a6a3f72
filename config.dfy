/** The `packaged.toml` configuration (src/packaged/config.py): where the
    file is looked for and how its table becomes a `Config`. The TOML file is
    taken as already decoded into a table of strings. */
module Configuration {
  import opened Wrappers
  import opened Paths
  import opened Environment
  import Packaged

  const ConfigName := "./packaged.toml"

  /** The keys a configuration must have, in the order they are looked up. */
  const RequiredKeys := ["output_path", "build_command", "startup_command"]

  /** The settings `create_package` is run with. `pythonVersion` is not a
      field of the dataclass as written; see the findings. */
  datatype Config = Config(
    sourceDirectory: Option<string>,
    outputPath: string,
    buildCommand: string,
    startupCommand: string,
    pythonVersion: string)

  datatype ConfigValidationError = ConfigValidationError(key: string)

  /** `config_file_exists(d)`: a regular file at `join(d, "./packaged.toml")`. */
  predicate ConfigFileExists(t: Tree, cwd: Path, directory: string) {
    IsFile(t, cwd, Join(directory, ConfigName))
  }

  /** The configuration file sits directly in the directory given. */
  lemma ConfigFileLocation(cwd: Path, directory: string)
    ensures AbsPath(cwd, Join(directory, ConfigName)) == AbsPath(cwd, directory) + ["packaged.toml"]
  {
    assert ConfigName == "./" + "packaged.toml";
    AbsPathJoinDotName(cwd, directory, "packaged.toml");
  }

  /** For a directory string whose pieces hold no "..", such as every
      absolute path `abspath` returns, the configuration file exists exactly
      when `packaged.toml` is a file directly in that directory. */
  lemma ConfigFileAt(t: Tree, cwd: Path, directory: string)
    requires NoDots(Split(directory))
    ensures ConfigFileExists(t, cwd, directory) <==> AbsPath(cwd, directory) + ["packaged.toml"] in t.files
  {
    ConfigNameNoDots();
    JoinNoDots(directory, ConfigName);
    var joined := Join(directory, ConfigName);
    ClimbsWithoutDots(t, Origin(cwd, joined), Split(joined));
    ConfigFileLocation(cwd, directory);
  }

  lemma ConfigNameNoDots()
    ensures ConfigName != "" && ConfigName[0] != '/' && NoDots(Split(ConfigName))
  {
    assert ConfigName == "." + "/" + "packaged.toml";
    SplitAtSlash(".", "packaged.toml");
    SplitWithoutSlash(".");
    SplitWithoutSlash("packaged.toml");
    assert Split(ConfigName) == [".", "packaged.toml"];
  }

  /** `parse_config(d)` on the decoded table: the source directory is `d`
      made absolute, the three commands come from the table, and the first
      required key that is missing is reported. */
  function ParseConfig(cwd: Path, directory: string, table: map<string, string>): (r: Result<Config, ConfigValidationError>)
    ensures r.Success? <==> forall i :: 0 <= i < |RequiredKeys| ==> RequiredKeys[i] in table
    ensures r.Success? ==>
              "output_path" in table && "build_command" in table && "startup_command" in table &&
              r.value == Config(Some(Render(AbsPath(cwd, directory))), table["output_path"],
                                table["build_command"], table["startup_command"], Packaged.DefaultPythonVersion)
    ensures r.Failure? ==>
              exists i :: 0 <= i < |RequiredKeys| && RequiredKeys[i] == r.error.key && RequiredKeys[i] !in table &&
                          forall j :: 0 <= j < i ==> RequiredKeys[j] in table
  {
    assert RequiredKeys[0] == "output_path" && RequiredKeys[1] == "build_command" && RequiredKeys[2] == "startup_command";
    if "output_path" !in table then Failure(ConfigValidationError("output_path"))
    else if "build_command" !in table then Failure(ConfigValidationError("build_command"))
    else if "startup_command" !in table then Failure(ConfigValidationError("startup_command"))
    else
      Success(Config(Some(Render(AbsPath(cwd, directory))), table["output_path"],
                     table["build_command"], table["startup_command"], Packaged.DefaultPythonVersion))
  }

  /** Keys other than the three required ones, `source_directory` among
      them, make no difference. */
  lemma OtherKeysIgnored(cwd: Path, directory: string, table: map<string, string>, key: string, value: string)
    requires key !in RequiredKeys
    ensures ParseConfig(cwd, directory, table[key := value]) == ParseConfig(cwd, directory, table)
  {
    var r1 := ParseConfig(cwd, directory, table[key := value]);
    var r2 := ParseConfig(cwd, directory, table);
    assert forall i :: 0 <= i < |RequiredKeys| ==> (RequiredKeys[i] in table[key := value] <==> RequiredKeys[i] in table);
    if r1.Failure? && r2.Failure? {
      assert r1.error.key == r2.error.key;
    }
  }

  /** The source directory of a parsed configuration is absolute: it names
      the directory given on the command line, whatever directory it is later
      resolved from. */
  lemma ConfigSourceIsArgument(cwd: Path, directory: string, table: map<string, string>, elsewhere: Path)
    requires Normal(cwd)
    requires ParseConfig(cwd, directory, table).Success?
    ensures var source := ParseConfig(cwd, directory, table).value.sourceDirectory;
            source.Some? && AbsPath(elsewhere, source.value) == AbsPath(cwd, directory)
  {
    AbsPathNormal(cwd, directory);
    RenderRoundTrip(elsewhere, AbsPath(cwd, directory));
  }
}

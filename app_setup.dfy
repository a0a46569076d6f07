/** Finding the repository to open (`app_setup.rs`): the only argument
    names it, no argument means the current directory, and more arguments
    are an error. The argument list and reading the current directory are
    inputs. */
module AppSetup {
  import opened Wrappers

  datatype ErrorKind =
    | GetCurrentDirFailed
    | FindRepositoryDirFailed
    | TooManyArgumentsToApp(count: nat, args: seq<string>)
    /** The operating system's reason, as reported. */
    | Io(message: string)

  /** An error and its causes, outermost first. */
  type Error = seq<ErrorKind>

  /** `getCurrentDir`: the directory, or the system's error wrapped. */
  function GetCurrentDir(currentDir: Result<string, string>): (r: Result<string, Error>)
    ensures currentDir.Ok? ==> r == Ok(currentDir.value)
    ensures currentDir.Err? ==> r == Err([GetCurrentDirFailed, Io(currentDir.error)])
  {
    match currentDir
    case Ok(dir) => Ok(dir)
    case Err(e) => Err([GetCurrentDirFailed, Io(e)])
  }

  /** `findRepositoryDir`, given the program's arguments (its own path
      first) and the outcome of reading the current directory. Every error
      is wrapped in `FindRepositoryDirFailed`. */
  function FindRepositoryDir(args: seq<string>, currentDir: Result<string, string>): (r: Result<string, Error>)
    ensures |args| <= 1 && currentDir.Ok? ==> r == Ok(currentDir.value)
    ensures |args| <= 1 && currentDir.Err? ==>
              r == Err([FindRepositoryDirFailed, GetCurrentDirFailed, Io(currentDir.error)])
    ensures |args| == 2 ==> r == Ok(args[1])
    ensures |args| > 2 ==> r == Err([FindRepositoryDirFailed, TooManyArgumentsToApp(|args| - 1, args)])
    ensures r.Err? ==> |r.error| >= 2 && r.error[0] == FindRepositoryDirFailed
  {
    var inner: Result<string, Error> :=
      if |args| <= 1 then GetCurrentDir(currentDir)
      else if |args| == 2 then Ok(args[1])
      else Err([TooManyArgumentsToApp(|args| - 1, args)]);
    match inner
    case Ok(dir) => Ok(dir)
    case Err(e) =>
      var chained := [FindRepositoryDirFailed] + e;
      assert |args| > 2 ==> chained == [FindRepositoryDirFailed, TooManyArgumentsToApp(|args| - 1, args)] by {
        if |args| > 2 {
          assert chained[1] == e[0];
        }
      }
      assert |args| <= 1 ==> chained == [FindRepositoryDirFailed, GetCurrentDirFailed, Io(currentDir.error)] by {
        if |args| <= 1 {
          assert chained[1] == e[0] && chained[2] == e[1];
        }
      }
      Err(chained)
  }
}

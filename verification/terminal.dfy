/** The terminal screen: a scrolling history of prompt and output lines, a
    command line, and a stand-in interpreter for a handful of shell
    commands. */
module Terminal {

  import opened Strings

  const InitialHistory: seq<string> := [
    "user@openhands:~$ ls",
    "Documents  Downloads  Pictures  Videos",
    "user@openhands:~$ cd Documents",
    "user@openhands:~/Documents$ nano notes.txt",
    "user@openhands:~/Documents$"
  ]
  const InitialPath: string := "~/Documents"

  const ListingOutput: string := "notes.txt  project.md  data.csv"
  const HelpOutput: string := "Available commands: ls, cd, cat, pwd, clear, help"
  const HomeDir: string := "/home/user"
  const TabIndent: string := "    "

  /** How the interpreter reads a command line, tried in this order: a
      prefix `ls`, a prefix `cd ` (the rest names the directory), a prefix
      `cat ` (the rest names the file), then exactly `pwd`, `help` or
      `clear`, and anything else is unknown. */
  datatype Kind = Ls | Cd(dir: string) | Cat(fileName: string) | Pwd | Help | Clear | NotFound

  function Dispatch(command: string): (k: Kind)
    ensures k == Ls <==> StartsWith(command, "ls")
    ensures k.Cd? <==> !StartsWith(command, "ls") && StartsWith(command, "cd ")
    ensures k.Cd? ==> command == "cd " + k.dir
    ensures k.Cat? <==> !StartsWith(command, "ls") && !StartsWith(command, "cd ") && StartsWith(command, "cat ")
    ensures k.Cat? ==> command == "cat " + k.fileName
    ensures k == Pwd <==> command == "pwd"
    ensures k == Help <==> command == "help"
    ensures k == Clear <==> command == "clear"
  {
    if StartsWith(command, "ls") then
      assert command[0] == 'l';
      Ls
    else if StartsWith(command, "cd ") then
      assert command[1] == 'd';
      Cd(command[3..])
    else if StartsWith(command, "cat ") then
      assert command[1] == 'a';
      Cat(command[4..])
    else if command == "pwd" then Pwd
    else if command == "help" then Help
    else if command == "clear" then Clear
    else NotFound
  }

  /** The line recorded for a command typed at `path`: the fixed user and
      host, then the directory, then `$ ` and the command as typed. */
  function Prompt(path: string, command: string): (line: string)
    ensures |line| == 17 + |path| + |command|
    ensures StartsWith(line, "user@openhands:")
    ensures line[15..15 + |path|] == path && line[15 + |path|..17 + |path|] == "$ "
    ensures EndsWith(line, command)
  {
    "user@openhands:" + path + "$ " + command
  }

  /** The output line of a command run at `path`: only `cd` and `clear`
      print nothing, and an unknown command is echoed at the end of its
      error line. */
  function Response(path: string, command: string): (out: string)
    ensures out == "" <==> Dispatch(command).Cd? || Dispatch(command) == Clear
    ensures Dispatch(command) == NotFound ==> EndsWith(out, command)
  {
    match Dispatch(command)
    case Ls => ListingOutput
    case Cd(_) => ""
    case Cat(fileName) =>
      var text := "This is the content of " + fileName + ".\nIt contains some example text.";
      assert text[0] == 'T';
      text
    case Pwd =>
      var dir := HomeDir + RemoveFirst(path, '~');
      assert dir[0] == '/';
      dir
    case Help => HelpOutput
    case Clear => ""
    case NotFound => "Command not found: " + command
  }

  /** The working directory after a command run at `path`: only `cd` moves;
      `cd ..` goes to `~` itself, and any other `cd X` descends, keeping the
      old directory in front. */
  function NextPath(path: string, command: string): (next: string)
    ensures !Dispatch(command).Cd? ==> next == path
    ensures Dispatch(command) == Cd("..") ==> next == "~"
    ensures Dispatch(command).Cd? && Dispatch(command).dir != ".." ==>
              StartsWith(next, path + "/") && EndsWith(next, Dispatch(command).dir)
              && |next| == |path| + 1 + |Dispatch(command).dir|
  {
    match Dispatch(command)
    case Cd(dir) => if dir == ".." then "~" else path + "/" + dir
    case _ => path
  }

  /** The history after a command run at `path`: `clear` empties it; any
      other command adds its prompt line and then its output, when there
      is output. */
  function HistoryAfter(history: seq<string>, path: string, command: string): (h: seq<string>)
    ensures Dispatch(command) == Clear ==> h == []
    ensures Dispatch(command) != Clear ==>
              |h| > |history| && h[..|history|] == history && h[|history|] == Prompt(path, command)
  {
    if Dispatch(command) == Clear then []
    else
      var response := Response(path, command);
      history + [Prompt(path, command)] + (if response != "" then [response] else [])
  }

  class TerminalScreen {
    var commandHistory: seq<string>
    var currentCommand: string
    var currentPath: string

    constructor ()
      ensures commandHistory == InitialHistory && currentCommand == "" && currentPath == InitialPath
    {
      commandHistory := InitialHistory;
      currentCommand := "";
      currentPath := InitialPath;
    }

    /** The command line's `onChangeText`. */
    method SetCurrentCommand(text: string)
      modifies this
      ensures currentCommand == text
      ensures commandHistory == old(commandHistory) && currentPath == old(currentPath)
    {
      currentCommand := text;
    }

    /** The Tab key: four spaces more on the command line. */
    method PressTab()
      modifies this
      ensures currentCommand == old(currentCommand) + TabIndent
      ensures commandHistory == old(commandHistory) && currentPath == old(currentPath)
    {
      currentCommand := currentCommand + TabIndent;
    }

    /** `executeCommand(command)`: the history, the directory and the
        emptied command line end as the interpreter says. */
    method ExecuteCommand(command: string)
      modifies this
      ensures commandHistory == HistoryAfter(old(commandHistory), old(currentPath), command)
      ensures currentPath == NextPath(old(currentPath), command)
      ensures currentCommand == ""
    {
      var newHistory := commandHistory + [Prompt(currentPath, command)];
      var response := "";
      if StartsWith(command, "ls") {
        response := ListingOutput;
      } else if StartsWith(command, "cd ") {
        var newDir := command[3..];
        if newDir == ".." {
          currentPath := "~";
        } else {
          currentPath := currentPath + "/" + newDir;
        }
      } else if StartsWith(command, "cat ") {
        var fileName := command[4..];
        response := "This is the content of " + fileName + ".\nIt contains some example text.";
      } else if command == "pwd" {
        response := HomeDir + RemoveFirst(currentPath, '~');
      } else if command == "help" {
        response := HelpOutput;
      } else if command == "clear" {
        commandHistory := [];
        currentCommand := "";
        return;
      } else {
        response := "Command not found: " + command;
      }
      if response != "" {
        newHistory := newHistory + [response];
      }
      commandHistory := newHistory;
      currentCommand := "";
    }

    /** Submitting the command line runs what it holds. */
    method SubmitEditing()
      modifies this
      ensures commandHistory == HistoryAfter(old(commandHistory), old(currentPath), old(currentCommand))
      ensures currentPath == NextPath(old(currentPath), old(currentCommand))
      ensures currentCommand == ""
    {
      ExecuteCommand(currentCommand);
    }
  }

  /** After a command other than `clear`, the history holds one output
      line behind the prompt line exactly when the command is not `cd`, and
      that line is the command's response. */
  lemma HistoryGrows(history: seq<string>, path: string, command: string)
    requires command != "clear"
    ensures var h := HistoryAfter(history, path, command);
            && (|h| == |history| + 2 <==> !Dispatch(command).Cd?)
            && (|h| == |history| + 1 <==> Dispatch(command).Cd?)
            && (|h| == |history| + 2 ==> h[|history| + 1] == Response(path, command))
  {
  }

  /** `clear` leaves nothing in the history, whatever it held. */
  lemma ClearEmptiesHistory(history: seq<string>, path: string)
    ensures HistoryAfter(history, path, "clear") == []
  {
    assert Dispatch("clear") == Clear;
  }

  /** `cd ..` always lands on `~`, and a further `pwd` prints the home
      directory. */
  lemma CdUpThenPwd(path: string)
    ensures NextPath(path, "cd ..") == "~"
    ensures Response(NextPath(path, "cd .."), "pwd") == HomeDir
  {
    assert Dispatch("cd ..") == Cd("..") by {
      assert "cd .."[0] == 'c';
      assert "cd .."[3..] == "..";
    }
    assert RemoveFirst("~", '~') == "";
  }
}

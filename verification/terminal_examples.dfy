/** Commands typed at the terminal's initial state and what the model
    makes of them. */
module TerminalExamples {

  import opened Strings
  import opened Terminal

  // One literal fact on its own, so that the caller's proof stays cheap.
  lemma DocumentsUnderHome()
    ensures HomeDir + "/Documents" == "/home/user/Documents"
  {
  }

  /** `pwd` at the start prints the home directory with `~` replaced. */
  lemma PwdAtStart()
    ensures Response(InitialPath, "pwd") == "/home/user/Documents"
  {
    var cmd := "pwd";
    assert Dispatch(cmd) == Pwd by {
      assert cmd[0] == 'p';
    }
    var path := InitialPath;
    assert path[0] == '~';
    assert RemoveFirst(path, '~') == path[1..];
    assert path[1..] == "/Documents";
    DocumentsUnderHome();
  }

  /** `ls` at the start adds its prompt line and the listing. */
  lemma LsAtStart()
    ensures HistoryAfter(InitialHistory, InitialPath, "ls")
            == InitialHistory + ["user@openhands:~/Documents$ ls", "notes.txt  project.md  data.csv"]
  {
    LsPromptAtStart();
    assert Response(InitialPath, "ls") == "notes.txt  project.md  data.csv";
  }

  // One literal fact on its own, so that the caller's proof stays cheap.
  lemma LsPromptAtStart()
    ensures Dispatch("ls") == Ls
    ensures Prompt(InitialPath, "ls") == "user@openhands:~/Documents$ ls"
  {
    assert "ls"[..2] == "ls";
  }

  /** `cat notes.txt` prints two lines naming the file. */
  lemma CatNotes(path: string)
    ensures Response(path, "cat notes.txt")
            == "This is the content of " + "notes.txt" + ".\nIt contains some example text."
  {
    var cmd := "cat notes.txt";
    assert Dispatch(cmd) == Cat("notes.txt") by {
      assert cmd[0] == 'c' && cmd[1] == 'a';
      assert cmd[..4] == "cat ";
      assert cmd[4..] == "notes.txt";
    }
  }

  /** An unknown command is echoed back in the error line. */
  lemma UnknownCommand(path: string)
    ensures Response(path, "unknown") == "Command not found: unknown"
  {
    var cmd := "unknown";
    assert Dispatch(cmd) == NotFound by {
      assert cmd[0] == 'u';
    }
    assert "Command not found: " + cmd == "Command not found: unknown";
  }

  /** Dispatch goes by prefix: anything that starts with `ls` lists, and a
      bare `cd` without the space is not a command at all. */
  lemma DispatchByPrefix()
    ensures Dispatch("lsof") == Ls
    ensures Dispatch("cd") == NotFound
  {
    assert "cd"[0] == 'c' && |"cd"| == 2;
  }
}

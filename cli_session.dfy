/**
 * cli/session.go: the interactive session's mode, current agent and live
 * prompt. Creating a runner for a mode is a call into the agent framework;
 * the model takes its success per mode as the parameter `runnerFor`.
 */
module CliSession {
  import opened GoStrings
  import opened CliInput

  /** The mode SwitchMode cycles to: team, deep, group, custom, team; anything else goes to team. */
  function NextMode(m: string): (n: string)
    ensures KnownMode(n)
    ensures !KnownMode(m) ==> n == ModeTeam
    ensures KnownMode(m) ==> n != m
  {
    if m == ModeTeam then ModeDeep
    else if m == ModeDeep then ModeGroup
    else if m == ModeGroup then ModeCustom
    else ModeTeam
  }

  /** Four switches bring a known mode back to itself, and no fewer do. */
  lemma NextModeCycle(m: string)
    requires KnownMode(m)
    ensures NextMode(NextMode(NextMode(NextMode(m)))) == m
    ensures NextMode(NextMode(m)) != m && NextMode(NextMode(NextMode(m))) != m
  {
  }

  class Session {
    var inputHistory: seq<string>
    var inputBuffer: InputBuffer
    var currentMode: string
    var currentAgent: string

    constructor (mode: string, history: seq<string>)
      ensures currentMode == mode && inputHistory == history && currentAgent == ""
      ensures fresh(inputBuffer) && inputBuffer.lines == [] && !inputBuffer.isContinuing
    {
      inputHistory := history;
      inputBuffer := new InputBuffer();
      currentMode := mode;
      currentAgent := "";
    }

    /** handleInput: the completed command, or "" while a continuation is pending. */
    method HandleLine(in_: string) returns (cmd: string)
      modifies inputBuffer
      ensures inputBuffer.isContinuing ==> cmd == ""
      ensures !inputBuffer.isContinuing ==> cmd == Join(old(inputBuffer.lines) + [TrimSpace(in_)], '\n')
      ensures inputBuffer.isContinuing <==> HasSuffix(TrimSpace(in_), "\\")
      ensures inputBuffer.lines ==
                if HasSuffix(TrimSpace(in_), "\\") then old(inputBuffer.lines) + [TrimSuffix(TrimSpace(in_), "\\")]
                else []
    {
      var needContinue;
      cmd, needContinue := inputBuffer.HandleInput(in_);
      if needContinue {
        cmd := "";
      }
    }

    /** changeLivePrefix: the continuation prompt, else the agent's prompt, else the mode's. */
    function LivePrefix(): (p: string)
      reads this, inputBuffer
      ensures inputBuffer.isContinuing ==> p == "请继续输入: "
      ensures !inputBuffer.isContinuing && currentAgent != "" ==> p == currentAgent + "> "
      ensures !inputBuffer.isContinuing && currentAgent == "" ==> p == GetPromptPrefix(currentMode)
    {
      if inputBuffer.isContinuing then "请继续输入: "
      else if currentAgent != "" then currentAgent + "> "
      else GetPromptPrefix(currentMode)
    }

    /**
     * SwitchMode: moves to the next mode and clears the current agent when a
     * runner for that mode can be created; otherwise reports an error and
     * changes nothing.
     */
    method SwitchMode(runnerFor: string -> bool) returns (name: string, ok: bool)
      modifies this
      ensures ok <==> runnerFor(NextMode(old(currentMode)))
      ensures ok ==> currentMode == NextMode(old(currentMode)) && currentAgent == "" && name == currentMode
      ensures !ok ==> currentMode == old(currentMode) && currentAgent == old(currentAgent) && name == ""
      ensures inputHistory == old(inputHistory) && inputBuffer == old(inputBuffer)
    {
      var newMode := NextMode(currentMode);
      if !runnerFor(newMode) {
        return "", false;
      }
      currentMode := newMode;
      currentAgent := "";
      name := newMode;
      ok := true;
    }
  }
}

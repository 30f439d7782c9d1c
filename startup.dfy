/** The opening of the game (src/main.rs:25-29): the player is asked for a marksman
    rating until the answer decodes to a known quality. The lines the player types are
    a parameter; `None` means they ran out without a valid answer, where the source
    would go on asking. */
module Startup {
  import opened U32
  import opened Ask
  import opened Marksman

  /** The quality one typed line decodes to. */
  function Answer(line: string): MarksmanQuality {
    FromU32(AskValue(line))
  }

  method ChooseMarksman(lines: seq<string>) returns (choice: Option<MarksmanQuality>, asked: nat)
    ensures asked <= |lines|
    ensures forall j :: 0 <= j < asked - 1 ==> Answer(lines[j]) == Unknown
    ensures choice.Some? ==> 0 < asked && choice.value == Answer(lines[asked - 1]) && choice.value != Unknown
    ensures choice.Some? ==> 1 <= AskValue(lines[asked - 1]) <= 5
    ensures choice.None? <==> forall j :: 0 <= j < |lines| ==> Answer(lines[j]) == Unknown
    ensures choice.None? ==> asked == |lines|
  {
    asked := 0;
    while asked < |lines|
      invariant asked <= |lines|
      invariant forall j :: 0 <= j < asked ==> Answer(lines[j]) == Unknown
    {
      var line := lines[asked];
      var quality := Answer(line);
      asked := asked + 1;
      if quality != Unknown {
        assert line == lines[asked - 1];
        return Some(quality), asked;
      }
    }
    choice := None;
  }
}

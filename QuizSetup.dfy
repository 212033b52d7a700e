/** The setup form: its player list and the configuration it submits. The
    form's other fields are set directly by their controls. */
module QuizSetup {
  import opened Types
  import opened Strings

  const MinPlayers := 2
  const MaxPlayers := 4

  /** Every player still carries its default label, numbered from 1. */
  predicate Numbered(list: seq<string>) {
    forall k :: 0 <= k < |list| ==> list[k] == PlayerLabel(k + 1)
  }

  /** Default labels are pairwise distinct. */
  lemma NumberedDistinct(list: seq<string>)
    requires Numbered(list)
    ensures forall i, j :: 0 <= i < j < |list| ==> list[i] != list[j]
  {
    forall i, j | 0 <= i < j < |list|
      ensures list[i] != list[j]
    {
      if list[i] == list[j] {
        PlayerLabelInjective(i + 1, j + 1);
      }
    }
  }

  class SetupForm {
    var topic: string
    var difficulty: Difficulty
    var questionCount: int
    var theme: QuizTheme
    var teachingStyle: TeachingStyle
    var gameMode: GameMode
    var isMultiplayer: bool
    var isStoryMode: bool
    var playerList: seq<string>
    var arcadeMap: ArcadeMap

    /** Between two and four players. */
    ghost predicate Valid()
      reads this
    {
      MinPlayers <= |playerList| <= MaxPlayers
    }

    constructor ()
      ensures Valid() && Numbered(playerList) && |playerList| == 2
      ensures topic == "" && difficulty == Medium && questionCount == 5 && theme == Light
      ensures teachingStyle == Standard && gameMode == Classic && !isMultiplayer && !isStoryMode
      ensures arcadeMap == Overworld
    {
      topic := "";
      difficulty := Medium;
      questionCount := 5;
      theme := Light;
      teachingStyle := Standard;
      gameMode := Classic;
      isMultiplayer := false;
      isStoryMode := false;
      playerList := [PlayerLabel(1), PlayerLabel(2)];
      arcadeMap := Overworld;
    }

    /** handleAddPlayer: a fifth player is refused. */
    method AddPlayer()
      requires Valid()
      modifies this`playerList
      ensures Valid()
      ensures |old(playerList)| < MaxPlayers ==> playerList == old(playerList) + [PlayerLabel(|old(playerList)| + 1)]
      ensures |old(playerList)| >= MaxPlayers ==> playerList == old(playerList)
      ensures old(Numbered(playerList)) ==> Numbered(playerList)
    {
      if |playerList| < MaxPlayers {
        playerList := playerList + [PlayerLabel(|playerList| + 1)];
      }
    }

    /** handleRemovePlayer: the last player goes, but two always remain. */
    method RemovePlayer()
      requires Valid()
      modifies this`playerList
      ensures Valid()
      ensures |old(playerList)| > MinPlayers ==> playerList == old(playerList)[..|old(playerList)| - 1]
      ensures |old(playerList)| <= MinPlayers ==> playerList == old(playerList)
      ensures old(Numbered(playerList)) ==> Numbered(playerList)
    {
      if |playerList| > MinPlayers {
        playerList := playerList[..|playerList| - 1];
      }
    }

    /** handlePlayerNameChange, from the name field of player `index`. */
    method RenamePlayer(index: nat, name: string)
      requires Valid() && index < |playerList|
      modifies this`playerList
      ensures Valid()
      ensures playerList == old(playerList)[index := name]
    {
      playerList := playerList[index := name];
    }

    /** handleSubmit: the configuration handed to the start handler, or
        nothing when the topic is blank. */
    function Submitted(): (r: Option<QuizConfig>)
      reads this
      ensures r.None? <==> Blank(topic)
      ensures r.Some? ==>
        var c := r.value;
        && c.topic == topic && c.difficulty == difficulty && c.questionCount == questionCount
        && c.theme == theme && c.gameMode == gameMode && c.isMultiplayer == isMultiplayer
        && c.teachingStyle == Some(teachingStyle) && c.questionTypes.None?
      ensures r.Some? ==> (r.value.isTvMode <==> gameMode == TvShow)
      ensures r.Some? ==> (r.value.isStoryMode <==> gameMode == Arcade && isStoryMode)
      ensures r.Some? ==> (r.value.arcadeMap.Some? <==> gameMode == Arcade)
      ensures r.Some? && gameMode == Arcade ==>
        r.value.arcadeMap == Some(if isStoryMode then Overworld else arcadeMap)
      ensures r.Some? ==> (r.value.playerNames.Some? <==> isMultiplayer)
      ensures r.Some? && isMultiplayer ==> r.value.playerNames == Some(playerList)
    {
      if Blank(topic) then None
      else
        var arcade := gameMode == Arcade;
        Some(QuizConfig(
          topic, difficulty, questionCount, theme,
          gameMode == TvShow,
          gameMode,
          isMultiplayer,
          arcade && isStoryMode,
          if isMultiplayer then Some(playerList) else None,
          if arcade then Some(if isStoryMode then Overworld else arcadeMap) else None,
          Some(teachingStyle),
          None))
    }

    /** A story configuration is always an arcade one that starts in the
        first world, and a multiplayer one names two to four players. */
    lemma SubmittedIsConsistent()
      requires Valid() && Submitted().Some?
      ensures Submitted().value.isStoryMode ==>
        Submitted().value.gameMode == Arcade && Submitted().value.arcadeMap == Some(Overworld)
      ensures Submitted().value.playerNames.Some? ==>
        MinPlayers <= |Submitted().value.playerNames.value| <= MaxPlayers
    {
    }
  }
}

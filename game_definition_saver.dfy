/** Saving a game definition: validate it, ask the event tracker to record
    its creation when it is new, then hand it to the data context and return
    what the data context returns.

    The collaborators are not part of this model and are given to the saver
    as functions: `alreadyInDatabase` stands for GameDefinition.AlreadyInDatabase,
    `dataContextSave` for IDataContext.Save, which either returns the saved
    entity or throws, and
    `isWhiteSpace` for Char.IsWhiteSpace. What the saver asks of the tracker
    and of the data context is recorded, in order, in the ghost log `effects`;
    the tracking call runs in a task that is started and not awaited, so the
    log records the request, not its completion. */
module GameDefinitions {
  import opened Wrappers
  import opened DotNet
  import opened Models

  /** The message of the exception thrown for a blank name. */
  const NameCannotBeNullOrWhitespaceMessage: string :=
    "gameDefinition.Name cannot be null or whitespace."

  /** A request the saver makes of a collaborator. */
  datatype Effect =
    | TrackGameDefinitionCreation(currentUser: Option<ApplicationUser>, gameDefinitionName: string)
    | DataContextSave(entity: GameDefinition, currentUser: Option<ApplicationUser>)

  function ValidateGameDefinitionIsNotNull(gameDefinition: Option<GameDefinition>): (r: Outcome<Exception>)
    ensures r.Pass? <==> gameDefinition.Some?
    ensures r.Fail? ==> r.error == ArgumentNullException("gameDefinition")
  {
    if gameDefinition.None? then Fail(ArgumentNullException("gameDefinition")) else Pass
  }

  function ValidateGameDefinitionNameIsNotNullOrWhitespace(
    gameDefinitionName: Option<string>, isWhiteSpace: char -> bool): (r: Outcome<Exception>)
    ensures gameDefinitionName == None ==> r.Fail?
    ensures gameDefinitionName.Some? ==>
      (r.Fail? <==> forall i :: 0 <= i < |gameDefinitionName.value| ==> isWhiteSpace(gameDefinitionName.value[i]))
    ensures r.Fail? ==> r.error == ArgumentException(NameCannotBeNullOrWhitespaceMessage)
  {
    if IsNullOrWhiteSpace(gameDefinitionName, isWhiteSpace) then
      Fail(ArgumentException(NameCannotBeNullOrWhitespaceMessage))
    else Pass
  }

  /** The two validations Save runs, in their order: a null definition is
      reported before its name is looked at. */
  function Validate(gameDefinition: Option<GameDefinition>, isWhiteSpace: char -> bool): (r: Outcome<Exception>)
    ensures gameDefinition.None? ==> r == Fail(ArgumentNullException("gameDefinition"))
    ensures r.Pass? <==>
      gameDefinition.Some? && !IsNullOrWhiteSpace(gameDefinition.value.name, isWhiteSpace)
    ensures gameDefinition.Some? && r.Fail? ==>
      r.error == ArgumentException(NameCannotBeNullOrWhitespaceMessage)
  {
    var notNull := ValidateGameDefinitionIsNotNull(gameDefinition);
    if notNull.Fail? then notNull
    else ValidateGameDefinitionNameIsNotNullOrWhitespace(gameDefinition.value.name, isWhiteSpace)
  }

  class GameDefinitionSaver {
    const alreadyInDatabase: GameDefinition -> bool
    const dataContextSave: (GameDefinition, Option<ApplicationUser>) -> Result<GameDefinition, Exception>
    const isWhiteSpace: char -> bool

    /** Everything asked of the event tracker and the data context so far. */
    ghost var effects: seq<Effect>

    /** Every creation event was asked for a definition that was not yet in
        the database, that has a non-blank name, and that the very next
        request saved under the same user. */
    ghost predicate Valid()
      reads this
    {
      forall i :: 0 <= i < |effects| && effects[i].TrackGameDefinitionCreation? ==>
        && i + 1 < |effects|
        && effects[i + 1].DataContextSave?
        && effects[i + 1].entity.name == Some(effects[i].gameDefinitionName)
        && effects[i + 1].currentUser == effects[i].currentUser
        && !alreadyInDatabase(effects[i + 1].entity)
        && !IsNullOrWhiteSpace(Some(effects[i].gameDefinitionName), isWhiteSpace)
    }

    constructor(
      alreadyInDatabase: GameDefinition -> bool,
      dataContextSave: (GameDefinition, Option<ApplicationUser>) -> Result<GameDefinition, Exception>,
      isWhiteSpace: char -> bool)
      ensures this.alreadyInDatabase == alreadyInDatabase
      ensures this.dataContextSave == dataContextSave
      ensures this.isWhiteSpace == isWhiteSpace
      ensures effects == [] && Valid()
    {
      this.alreadyInDatabase := alreadyInDatabase;
      this.dataContextSave := dataContextSave;
      this.isWhiteSpace := isWhiteSpace;
      effects := [];
    }

    /** A definition that fails validation leaves the log untouched; a valid
        one asks for a creation event (carrying its non-blank name) exactly
        when it is new, and is then handed to the data context exactly once.
        What the data context returns or throws is what Save returns or
        throws; when it throws, the creation event has already been asked
        for and stays in the log. */
    method Save(gameDefinition: Option<GameDefinition>, currentUser: Option<ApplicationUser>)
      returns (r: Result<GameDefinition, Exception>)
      requires Valid()
      modifies this`effects
      ensures Valid()
      ensures r.Err? <==>
        Validate(gameDefinition, isWhiteSpace).Fail?
        || dataContextSave(gameDefinition.value, currentUser).Err?
      ensures Validate(gameDefinition, isWhiteSpace).Fail? ==>
        r == Err(Validate(gameDefinition, isWhiteSpace).error) && effects == old(effects)
      ensures Validate(gameDefinition, isWhiteSpace).Pass? ==>
        var entity := gameDefinition.value;
        && entity.name.Some?
        && !(forall i :: 0 <= i < |entity.name.value| ==> isWhiteSpace(entity.name.value[i]))
        && r == dataContextSave(entity, currentUser)
        && effects == old(effects)
             + (if alreadyInDatabase(entity) then []
                else [TrackGameDefinitionCreation(currentUser, entity.name.value)])
             + [DataContextSave(entity, currentUser)]
    {
      var validation := Validate(gameDefinition, isWhiteSpace);
      if validation.Fail? {
        return Err(validation.error);
      }
      var entity := gameDefinition.value;
      var isNewGameDefinition := !alreadyInDatabase(entity);
      if isNewGameDefinition {
        effects := effects + [TrackGameDefinitionCreation(currentUser, entity.name.value)];
      }
      effects := effects + [DataContextSave(entity, currentUser)];
      r := dataContextSave(entity, currentUser);
    }
  }
}

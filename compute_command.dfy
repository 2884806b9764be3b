/**
 * The command model of the compute layer: the numeric command identifiers,
 * the name -> identifier lookup and the identifier -> argument-count lookup.
 */
module Compute {

  const UnknownCommandID: int := 0
  const SetCommandID: int := 1
  const GetCommandID: int := 2
  const DelCommandID: int := 3

  const UnknownCommand: string := "UNKNOWN"
  const SetCommand: string := "SET"
  const GetCommand: string := "GET"
  const DelCommand: string := "DEL"

  /** The table of known command names; "UNKNOWN" is deliberately not in it. */
  const NamesToId: map<string, int> :=
    map[SetCommand := SetCommandID, GetCommand := GetCommandID, DelCommand := DelCommandID]

  const SetCommandArgumentsNumber: int := 2
  const GetCommandArgumentsNumber: int := 1
  const DelCommandArgumentsNumber: int := 1

  const ArgumentsNumber: map<int, int> :=
    map[SetCommandID := SetCommandArgumentsNumber,
        GetCommandID := GetCommandArgumentsNumber,
        DelCommandID := DelCommandArgumentsNumber]

  /** A parsed query as the compute layer hands it on: its command and its arguments. */
  datatype Query = Query(commandId: int, arguments: seq<string>)

  /** The identifiers a command name can map to. */
  predicate IsCommandID(id: int) {
    id == UnknownCommandID || id == SetCommandID || id == GetCommandID || id == DelCommandID
  }

  /**
   * Looks a command name up; a name missing from the table is UNKNOWN.
   * The match is exact: no case folding, no trimming.
   */
  function CommandNameToCommandID(command: string): (id: int)
    ensures IsCommandID(id)
    ensures id == SetCommandID <==> command == SetCommand
    ensures id == GetCommandID <==> command == GetCommand
    ensures id == DelCommandID <==> command == DelCommand
    ensures id == UnknownCommandID <==> command != SetCommand && command != GetCommand && command != DelCommand
  {
    if command in NamesToId then NamesToId[command] else UnknownCommandID
  }

  /** The number of arguments a command takes; the map's zero value, 0, for any other id. */
  function CommandArgumentsNumber(commandId: int): (n: int)
    ensures commandId == SetCommandID ==> n == 2
    ensures commandId == GetCommandID ==> n == 1
    ensures commandId == DelCommandID ==> n == 1
    ensures commandId != SetCommandID && commandId != GetCommandID && commandId != DelCommandID ==> n == 0
    ensures 0 <= n <= 2
  {
    if commandId in ArgumentsNumber then ArgumentsNumber[commandId] else 0
  }

  /** The name under which a known command is looked up (the inverse of the lookup). */
  function CommandName(id: int): (name: string)
    requires id == SetCommandID || id == GetCommandID || id == DelCommandID
    ensures name in NamesToId && NamesToId[name] == id
  {
    if id == SetCommandID then SetCommand else if id == GetCommandID then GetCommand else DelCommand
  }

  /** Looking up the name of a known command gives that command back. */
  lemma NameRoundTrip(id: int)
    requires id == SetCommandID || id == GetCommandID || id == DelCommandID
    ensures CommandNameToCommandID(CommandName(id)) == id
  {
  }

  /** The lookup is injective on the names it knows. */
  lemma NameToIdInjective(a: string, b: string)
    requires CommandNameToCommandID(a) != UnknownCommandID
    requires CommandNameToCommandID(a) == CommandNameToCommandID(b)
    ensures a == b
  {
  }

  /** "UNKNOWN" itself and lower-case spellings are not recognised. */
  lemma UnrecognisedNames()
    ensures CommandNameToCommandID(UnknownCommand) == UnknownCommandID
    ensures CommandNameToCommandID("set") == UnknownCommandID
    ensures CommandNameToCommandID("get") == UnknownCommandID
    ensures CommandNameToCommandID("del") == UnknownCommandID
    ensures CommandArgumentsNumber(UnknownCommandID) == 0
  {
  }
}

/** usecase/user_register_usecase.go: registration of a member with a name
    and an age, through a DAO known only by its interface. */
module UserRegisterUsecase {
  import opened Wrappers
  import opened Sql
  import opened GoStrings

  /** model.User of this use case: an id, a name and an age. */
  datatype Member = Member(id: string, name: string, age: int)

  const InvalidName: string := "invalid name"
  const InvalidAge: string := "invalid age"
  const InvalidNameMessage: string := InvalidName + ": must not be empty and max 50 characters"
  const InvalidAgeMessage: string := InvalidAge + ": must be between 20 and 80"

  /** Execute: the name check (1 to 50 bytes), then the age check (20 to 80
      inclusive), then `registerUser` on the member. It answers the id, or ""
      and the first error; `registerUser` is consulted only when both checks
      pass. */
  function Execute(id: string, name: string, age: int, registerUser: Member -> Option<Error>): (r: IdResult)
    ensures name == "" || Utf8Len(name) > 50 ==> r == IdResult("", Some(Message(InvalidNameMessage)))
    ensures name != "" && Utf8Len(name) <= 50 && (age < 20 || age > 80) ==> r == IdResult("", Some(Message(InvalidAgeMessage)))
    ensures name != "" && Utf8Len(name) <= 50 && 20 <= age <= 80 ==>
      r == if registerUser(Member(id, name, age)).Some? then IdResult("", registerUser(Member(id, name, age))) else IdResult(id, None)
    ensures r.err.Some? ==> r.id == ""
  {
    if name == "" || Utf8Len(name) > 50 then IdResult("", Some(Message(InvalidNameMessage)))
    else if age < 20 || age > 80 then IdResult("", Some(Message(InvalidAgeMessage)))
    else
      var user := Member(id, name, age);
      var err := registerUser(user);
      if err.Some? then IdResult("", err) else IdResult(user.id, None)
  }

  /** A refused input gets the same answer whatever the DAO would have done:
      the DAO is not called. */
  lemma RefusedInputSkipsDao(id: string, name: string, age: int, f: Member -> Option<Error>, g: Member -> Option<Error>)
    requires name == "" || Utf8Len(name) > 50 || age < 20 || age > 80
    ensures Execute(id, name, age, f) == Execute(id, name, age, g)
    ensures Execute(id, name, age, f).err.Some?
  {
  }

  /** Both boundary ages are accepted. */
  lemma BoundaryAgesAccepted(id: string, name: string, registerUser: Member -> Option<Error>)
    requires name != "" && Utf8Len(name) <= 50
    requires registerUser(Member(id, name, 20)).None? && registerUser(Member(id, name, 80)).None?
    ensures Execute(id, name, 20, registerUser) == IdResult(id, None)
    ensures Execute(id, name, 80, registerUser) == IdResult(id, None)
  {
  }

  /** `strings.Contains(err.Error(), msg)`, the test's check on an error. */
  predicate ErrorMentions(e: Option<Error>, msg: string)
  {
    e.Some? && e.value.Message? && Contains(e.value.text, msg)
  }

  /** The error texts carry the substrings the test looks for. */
  lemma MessagesMentionTheirField()
    ensures Contains(InvalidNameMessage, InvalidName)
    ensures Contains(InvalidAgeMessage, InvalidAge)
  {
    ContainsOwnPrefix(InvalidName, ": must not be empty and max 50 characters");
    ContainsOwnPrefix(InvalidAge, ": must be between 20 and 80");
  }

  /** The test's valid case (usecase/user_register_usecase_test.go:43). */
  lemma RegisterValidCase()
    ensures Execute("test_id_1", "ValidName", 30, _ => None) == IdResult("test_id_1", None)
  {
    Utf8LenAscii("ValidName");
  }

  /** The test's empty-name case (usecase/user_register_usecase_test.go:46). */
  lemma RegisterEmptyNameCase()
    ensures ErrorMentions(Execute("test_id_2", "", 30, _ => None).err, InvalidName)
  {
    MessagesMentionTheirField();
  }

  /** More than fifty characters are always more than fifty bytes. */
  lemma LongNameRefused(id: string, name: string, age: int, registerUser: Member -> Option<Error>)
    requires |name| > 50
    ensures Execute(id, name, age, registerUser) == IdResult("", Some(Message(InvalidNameMessage)))
  {
    Utf8LenAtLeast(name);
  }

  /** The test's long-name case (usecase/user_register_usecase_test.go:49),
      a name of 67 characters. */
  lemma RegisterLongNameCase()
    ensures ErrorMentions(Execute("test_id_3", "ThisNameIsWayTooLongToBeValidAndShouldCauseAnError!!!!!!!!!!!!!!!!!", 30, _ => None).err, InvalidName)
  {
    LongNameRefused("test_id_3", "ThisNameIsWayTooLongToBeValidAndShouldCauseAnError!!!!!!!!!!!!!!!!!", 30, _ => None);
    MessagesMentionTheirField();
  }

  /** The test's two out-of-range ages (usecase/user_register_usecase_test.go:52-55). */
  lemma RegisterAgeCases()
    ensures ErrorMentions(Execute("test_id_4", "ValidName", 19, _ => None).err, InvalidAge)
    ensures ErrorMentions(Execute("test_id_5", "ValidName", 81, _ => None).err, InvalidAge)
  {
    Utf8LenAscii("ValidName");
    MessagesMentionTheirField();
  }
}

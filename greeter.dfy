/** src/objects/greeter.ts: a `Student` whose `fullName` is fixed at construction and
    the static `greeter` of any `Person`. */
module Greeter {

  /** `interface Person`. */
  datatype Person = Person(firstName: string, lastName: string)

  /** `class Student`: the three constructor parameters and `fullName`. */
  datatype Student = Student(firstName: string, middleInitial: string, lastName: string, fullName: string)

  const Salutation: string := "Hello, "

  /** The `Student` constructor: `fullName` is the three parts separated by one space
      each, and the parts are stored as given. */
  function NewStudent(firstName: string, middleInitial: string, lastName: string): (s: Student)
    ensures s.firstName == firstName && s.middleInitial == middleInitial && s.lastName == lastName
    ensures |s.fullName| == |firstName| + |middleInitial| + |lastName| + 2
    ensures s.fullName[..|firstName|] == firstName
    ensures s.fullName[|firstName|] == ' '
    ensures s.fullName[|firstName| + 1..|firstName| + 1 + |middleInitial|] == middleInitial
    ensures s.fullName[|firstName| + 1 + |middleInitial|] == ' '
    ensures s.fullName[|firstName| + |middleInitial| + 2..] == lastName
  {
    Student(firstName, middleInitial, lastName, firstName + " " + middleInitial + " " + lastName)
  }

  /** A `Student` is structurally a `Person`. */
  function AsPerson(s: Student): Person
  {
    Person(s.firstName, s.lastName)
  }

  /** `Student.greeter`: the salutation, the first name, one space, the last name. */
  function Greet(person: Person): (r: string)
    ensures |r| == |Salutation| + |person.firstName| + 1 + |person.lastName|
    ensures r[..|Salutation|] == Salutation
    ensures r[|Salutation|..|Salutation| + |person.firstName|] == person.firstName
    ensures r[|Salutation| + |person.firstName|] == ' '
    ensures r[|Salutation| + |person.firstName| + 1..] == person.lastName
  {
    Salutation + person.firstName + " " + person.lastName
  }

  /** Greeting a student ignores the middle initial: two students who differ only in it
      get the same greeting, and the text after the salutation is the full name with
      the middle initial and its space taken out. */
  lemma GreetIgnoresMiddleInitial(first: string, m1: string, m2: string, last: string)
    ensures Greet(AsPerson(NewStudent(first, m1, last))) == Greet(AsPerson(NewStudent(first, m2, last)))
    ensures var full := NewStudent(first, m1, last).fullName;
      Greet(AsPerson(NewStudent(first, m1, last)))[|Salutation|..]
        == full[..|first| + 1] + full[|first| + |m1| + 2..]
  {
  }
}

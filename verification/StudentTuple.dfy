/** The record type of the demo schema. */
module StudentTuples {

  type Byte = x: int | 0 <= x < 0x100
  type Word = x: int | 0 <= x < 0x1_0000_0000

  /** Everything in a record but its key. */
  datatype Student = Student(name: seq<Byte>, age: Byte, checksum: Word, tick: Word)

  datatype StudentTuple = StudentTuple(student: Student, key: nat)
}

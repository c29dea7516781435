/** The syntax tree the parser builds. The source has one class per node kind;
    here the five binary classes share the constructor `Binary` and the six
    prefix classes share `Unary`:
      AddNode, SubtractNode, MultiplyNode, DivideNode, PowerNode  ~  Binary(Add | Subtract | Multiply | Divide | Power, _, _)
      PlusNode, MinusNode, SinusNode, CosinusNode, ExponentNode, SquareNode  ~  Unary(Plus | Minus | Sin | Cos | Exp | Sqrt, _)
      NumberNode ~ Number, LetterNode ~ Letter, IndexNode ~ Index. */
module Nodes {
  import opened Tokens

  datatype BinOp = Add | Subtract | Multiply | Divide | Power

  datatype UnOp = Plus | Minus | Sin | Cos | Exp | Sqrt

  datatype Node =
    | Number(value: Value)
    | Letter(name: Value)
    | Index(name: Value, index: Node)
    | Binary(op: BinOp, left: Node, right: Node)
    | Unary(uop: UnOp, operand: Node)
}

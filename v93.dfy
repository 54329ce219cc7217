/** The Hermes bytecode version 93 instruction set: the `Instruction` enum of
 *  hermes_dec/src/bytecode/v93.rs and its `JS_BUILTINS` table.
 *
 *  An opcode is the position of its variant in the enum declaration, so the
 *  variants are written here as named opcode constants in declaration order;
 *  `Fields` gives each variant's operands in declaration order. */
module V93 {
  import opened Wrappers

  /** Number of variants of the enum: the first byte that is not an opcode. */
  const VARIANT_COUNT: nat := 204

  /** An opcode byte that names a variant. */
  newtype Opcode = b: int | 0 <= b < 204

  /** The Rust types an operand may have; each is read by its own `byteorder` call. */
  datatype OperandType = U8 | I8 | U16 | I32 | U32 | F64 | Bool

  /** A named operand of a variant. */
  datatype Field = Field(name: string, ty: OperandType)

  /** A decoded operand. Integer operands hold their (signed or unsigned) value;
   *  an `f64` operand holds its raw IEEE-754 bit pattern, uninterpreted. */
  datatype Operand = Int(v: int) | Flag(b: bool)

  /** A decoded instruction: the variant's opcode and its operands in declaration order. */
  datatype Instruction = Instruction(op: Opcode, operands: seq<Operand>)

  const Unreachable: Opcode := 0
  const NewObjectWithBuffer: Opcode := 1
  const NewObjectWithBufferLong: Opcode := 2
  const NewObject: Opcode := 3
  const NewObjectWithParent: Opcode := 4
  const NewArrayWithBuffer: Opcode := 5
  const NewArrayWithBufferLong: Opcode := 6
  const NewArray: Opcode := 7
  const Mov: Opcode := 8
  const MovLong: Opcode := 9
  const Negate: Opcode := 10
  const Not: Opcode := 11
  const BitNot: Opcode := 12
  const TypeOf: Opcode := 13
  const Eq: Opcode := 14
  const StrictEq: Opcode := 15
  const Neq: Opcode := 16
  const StrictNeq: Opcode := 17
  const Less: Opcode := 18
  const LessEq: Opcode := 19
  const Greater: Opcode := 20
  const GreaterEq: Opcode := 21
  const Add: Opcode := 22
  const AddN: Opcode := 23
  const Mul: Opcode := 24
  const MulN: Opcode := 25
  const Div: Opcode := 26
  const DivN: Opcode := 27
  const Mod: Opcode := 28
  const Sub: Opcode := 29
  const SubN: Opcode := 30
  const LShift: Opcode := 31
  const RShift: Opcode := 32
  const URshift: Opcode := 33
  const BitAnd: Opcode := 34
  const BitXor: Opcode := 35
  const BitOr: Opcode := 36
  const Inc: Opcode := 37
  const Dec: Opcode := 38
  const InstanceOf: Opcode := 39
  const IsIn: Opcode := 40
  const GetEnvironment: Opcode := 41
  const StoreToEnvironment: Opcode := 42
  const StoreToEnvironmentL: Opcode := 43
  const StoreNPToEnvironment: Opcode := 44
  const StoreNPToEnvironmentL: Opcode := 45
  const LoadFromEnvironment: Opcode := 46
  const LoadFromEnvironmentL: Opcode := 47
  const GetGlobalObject: Opcode := 48
  const GetNewTarget: Opcode := 49
  const CreateEnvironment: Opcode := 50
  const DeclareGlobalVar: Opcode := 51
  const GetByIdShort: Opcode := 52
  const GetById: Opcode := 53
  const GetByIdLong: Opcode := 54
  const TryGetById: Opcode := 55
  const TryGetByIdLong: Opcode := 56
  const PutById: Opcode := 57
  const PutByIdLong: Opcode := 58
  const TryPutById: Opcode := 59
  const TryPutByIdLong: Opcode := 60
  const PutNewOwnByIdShort: Opcode := 61
  const PutNewOwnById: Opcode := 62
  const PutNewOwnByIdLong: Opcode := 63
  const PutNewOwnNEById: Opcode := 64
  const PutNewOwnNEByIdLong: Opcode := 65
  const PutOwnByIndex: Opcode := 66
  const PutOwnByIndexL: Opcode := 67
  const PutOwnByVal: Opcode := 68
  const DelById: Opcode := 69
  const DelByIdLong: Opcode := 70
  const GetByVal: Opcode := 71
  const PutByVal: Opcode := 72
  const DelByVal: Opcode := 73
  const PutOwnGetterSetterByVal: Opcode := 74
  const GetPNameList: Opcode := 75
  const GetNextPName: Opcode := 76
  const Call: Opcode := 77
  const Construct: Opcode := 78
  const Call1: Opcode := 79
  const CallDirect: Opcode := 80
  const Call2: Opcode := 81
  const Call3: Opcode := 82
  const Call4: Opcode := 83
  const CallLong: Opcode := 84
  const ConstructLong: Opcode := 85
  const CallDirectLongIndex: Opcode := 86
  const CallBuiltin: Opcode := 87
  const CallBuiltinLong: Opcode := 88
  const GetBuiltinClosure: Opcode := 89
  const Ret: Opcode := 90
  const Catch: Opcode := 91
  const DirectEval: Opcode := 92
  const Throw: Opcode := 93
  const ThrowIfEmpty: Opcode := 94
  const Debugger: Opcode := 95
  const AsyncBreakCheck: Opcode := 96
  const ProfilePoint: Opcode := 97
  const CreateClosure: Opcode := 98
  const CreateClosureLongIndex: Opcode := 99
  const CreateGeneratorClosure: Opcode := 100
  const CreateGeneratorClosureLongIndex: Opcode := 101
  const CreateAsyncClosure: Opcode := 102
  const CreateAsyncClosureLongIndex: Opcode := 103
  const CreateThis: Opcode := 104
  const SelectObject: Opcode := 105
  const LoadParam: Opcode := 106
  const LoadParamLong: Opcode := 107
  const LoadConstUInt8: Opcode := 108
  const LoadConstInt: Opcode := 109
  const LoadConstDouble: Opcode := 110
  const LoadConstBigInt: Opcode := 111
  const LoadConstBigIntLongIndex: Opcode := 112
  const LoadConstString: Opcode := 113
  const LoadConstStringLongIndex: Opcode := 114
  const LoadConstEmpty: Opcode := 115
  const LoadConstUndefined: Opcode := 116
  const LoadConstNull: Opcode := 117
  const LoadConstTrue: Opcode := 118
  const LoadConstFalse: Opcode := 119
  const LoadConstZero: Opcode := 120
  const CoerceThisNS: Opcode := 121
  const LoadThisNS: Opcode := 122
  const ToNumber: Opcode := 123
  const ToNumeric: Opcode := 124
  const ToInt32: Opcode := 125
  const AddEmptyString: Opcode := 126
  const GetArgumentsPropByVal: Opcode := 127
  const GetArgumentsLength: Opcode := 128
  const ReifyArguments: Opcode := 129
  const CreateRegExp: Opcode := 130
  const SwitchImm: Opcode := 131
  const StartGenerator: Opcode := 132
  const ResumeGenerator: Opcode := 133
  const CompleteGenerator: Opcode := 134
  const CreateGenerator: Opcode := 135
  const CreateGeneratorLongIndex: Opcode := 136
  const IteratorBegin: Opcode := 137
  const IteratorNext: Opcode := 138
  const IteratorClose: Opcode := 139
  const Jmp: Opcode := 140
  const JmpLong: Opcode := 141
  const JmpTrue: Opcode := 142
  const JmpTrueLong: Opcode := 143
  const JmpFalse: Opcode := 144
  const JmpFalseLong: Opcode := 145
  const JmpUndefined: Opcode := 146
  const JmpUndefinedLong: Opcode := 147
  const SaveGenerator: Opcode := 148
  const SaveGeneratorLong: Opcode := 149
  const JLess: Opcode := 150
  const JLessLong: Opcode := 151
  const JNotLess: Opcode := 152
  const JNotLessLong: Opcode := 153
  const JLessN: Opcode := 154
  const JLessNLong: Opcode := 155
  const JNotLessN: Opcode := 156
  const JNotLessNLong: Opcode := 157
  const JLessEqual: Opcode := 158
  const JLessEqualLong: Opcode := 159
  const JNotLessEqual: Opcode := 160
  const JNotLessEqualLong: Opcode := 161
  const JLessEqualN: Opcode := 162
  const JLessEqualNLong: Opcode := 163
  const JNotLessEqualN: Opcode := 164
  const JNotLessEqualNLong: Opcode := 165
  const JGreater: Opcode := 166
  const JGreaterLong: Opcode := 167
  const JNotGreater: Opcode := 168
  const JNotGreaterLong: Opcode := 169
  const JGreaterN: Opcode := 170
  const JGreaterNLong: Opcode := 171
  const JNotGreaterN: Opcode := 172
  const JNotGreaterNLong: Opcode := 173
  const JGreaterEqual: Opcode := 174
  const JGreaterEqualLong: Opcode := 175
  const JNotGreaterEqual: Opcode := 176
  const JNotGreaterEqualLong: Opcode := 177
  const JGreaterEqualN: Opcode := 178
  const JGreaterEqualNLong: Opcode := 179
  const JNotGreaterEqualN: Opcode := 180
  const JNotGreaterEqualNLong: Opcode := 181
  const JEqual: Opcode := 182
  const JEqualLong: Opcode := 183
  const JNotEqual: Opcode := 184
  const JNotEqualLong: Opcode := 185
  const JStrictEqual: Opcode := 186
  const JStrictEqualLong: Opcode := 187
  const JStrictNotEqual: Opcode := 188
  const JStrictNotEqualLong: Opcode := 189
  const Add32: Opcode := 190
  const Sub32: Opcode := 191
  const Mul32: Opcode := 192
  const Divi32: Opcode := 193
  const Divu32: Opcode := 194
  const Loadi8: Opcode := 195
  const Loadu8: Opcode := 196
  const Loadi16: Opcode := 197
  const Loadu16: Opcode := 198
  const Loadi32: Opcode := 199
  const Loadu32: Opcode := 200
  const Store8: Opcode := 201
  const Store16: Opcode := 202
  const Store32: Opcode := 203

  /** The variant identifier as written in the enum. */
  function Name(op: Opcode): string
  {
    match op
    case 0 => "Unreachable"
    case 1 => "NewObjectWithBuffer"
    case 2 => "NewObjectWithBufferLong"
    case 3 => "NewObject"
    case 4 => "NewObjectWithParent"
    case 5 => "NewArrayWithBuffer"
    case 6 => "NewArrayWithBufferLong"
    case 7 => "NewArray"
    case 8 => "Mov"
    case 9 => "MovLong"
    case 10 => "Negate"
    case 11 => "Not"
    case 12 => "BitNot"
    case 13 => "TypeOf"
    case 14 => "Eq"
    case 15 => "StrictEq"
    case 16 => "Neq"
    case 17 => "StrictNeq"
    case 18 => "Less"
    case 19 => "LessEq"
    case 20 => "Greater"
    case 21 => "GreaterEq"
    case 22 => "Add"
    case 23 => "AddN"
    case 24 => "Mul"
    case 25 => "MulN"
    case 26 => "Div"
    case 27 => "DivN"
    case 28 => "Mod"
    case 29 => "Sub"
    case 30 => "SubN"
    case 31 => "LShift"
    case 32 => "RShift"
    case 33 => "URshift"
    case 34 => "BitAnd"
    case 35 => "BitXor"
    case 36 => "BitOr"
    case 37 => "Inc"
    case 38 => "Dec"
    case 39 => "InstanceOf"
    case 40 => "IsIn"
    case 41 => "GetEnvironment"
    case 42 => "StoreToEnvironment"
    case 43 => "StoreToEnvironmentL"
    case 44 => "StoreNPToEnvironment"
    case 45 => "StoreNPToEnvironmentL"
    case 46 => "LoadFromEnvironment"
    case 47 => "LoadFromEnvironmentL"
    case 48 => "GetGlobalObject"
    case 49 => "GetNewTarget"
    case 50 => "CreateEnvironment"
    case 51 => "DeclareGlobalVar"
    case 52 => "GetByIdShort"
    case 53 => "GetById"
    case 54 => "GetByIdLong"
    case 55 => "TryGetById"
    case 56 => "TryGetByIdLong"
    case 57 => "PutById"
    case 58 => "PutByIdLong"
    case 59 => "TryPutById"
    case 60 => "TryPutByIdLong"
    case 61 => "PutNewOwnByIdShort"
    case 62 => "PutNewOwnById"
    case 63 => "PutNewOwnByIdLong"
    case 64 => "PutNewOwnNEById"
    case 65 => "PutNewOwnNEByIdLong"
    case 66 => "PutOwnByIndex"
    case 67 => "PutOwnByIndexL"
    case 68 => "PutOwnByVal"
    case 69 => "DelById"
    case 70 => "DelByIdLong"
    case 71 => "GetByVal"
    case 72 => "PutByVal"
    case 73 => "DelByVal"
    case 74 => "PutOwnGetterSetterByVal"
    case 75 => "GetPNameList"
    case 76 => "GetNextPName"
    case 77 => "Call"
    case 78 => "Construct"
    case 79 => "Call1"
    case 80 => "CallDirect"
    case 81 => "Call2"
    case 82 => "Call3"
    case 83 => "Call4"
    case 84 => "CallLong"
    case 85 => "ConstructLong"
    case 86 => "CallDirectLongIndex"
    case 87 => "CallBuiltin"
    case 88 => "CallBuiltinLong"
    case 89 => "GetBuiltinClosure"
    case 90 => "Ret"
    case 91 => "Catch"
    case 92 => "DirectEval"
    case 93 => "Throw"
    case 94 => "ThrowIfEmpty"
    case 95 => "Debugger"
    case 96 => "AsyncBreakCheck"
    case 97 => "ProfilePoint"
    case 98 => "CreateClosure"
    case 99 => "CreateClosureLongIndex"
    case 100 => "CreateGeneratorClosure"
    case 101 => "CreateGeneratorClosureLongIndex"
    case 102 => "CreateAsyncClosure"
    case 103 => "CreateAsyncClosureLongIndex"
    case 104 => "CreateThis"
    case 105 => "SelectObject"
    case 106 => "LoadParam"
    case 107 => "LoadParamLong"
    case 108 => "LoadConstUInt8"
    case 109 => "LoadConstInt"
    case 110 => "LoadConstDouble"
    case 111 => "LoadConstBigInt"
    case 112 => "LoadConstBigIntLongIndex"
    case 113 => "LoadConstString"
    case 114 => "LoadConstStringLongIndex"
    case 115 => "LoadConstEmpty"
    case 116 => "LoadConstUndefined"
    case 117 => "LoadConstNull"
    case 118 => "LoadConstTrue"
    case 119 => "LoadConstFalse"
    case 120 => "LoadConstZero"
    case 121 => "CoerceThisNS"
    case 122 => "LoadThisNS"
    case 123 => "ToNumber"
    case 124 => "ToNumeric"
    case 125 => "ToInt32"
    case 126 => "AddEmptyString"
    case 127 => "GetArgumentsPropByVal"
    case 128 => "GetArgumentsLength"
    case 129 => "ReifyArguments"
    case 130 => "CreateRegExp"
    case 131 => "SwitchImm"
    case 132 => "StartGenerator"
    case 133 => "ResumeGenerator"
    case 134 => "CompleteGenerator"
    case 135 => "CreateGenerator"
    case 136 => "CreateGeneratorLongIndex"
    case 137 => "IteratorBegin"
    case 138 => "IteratorNext"
    case 139 => "IteratorClose"
    case 140 => "Jmp"
    case 141 => "JmpLong"
    case 142 => "JmpTrue"
    case 143 => "JmpTrueLong"
    case 144 => "JmpFalse"
    case 145 => "JmpFalseLong"
    case 146 => "JmpUndefined"
    case 147 => "JmpUndefinedLong"
    case 148 => "SaveGenerator"
    case 149 => "SaveGeneratorLong"
    case 150 => "JLess"
    case 151 => "JLessLong"
    case 152 => "JNotLess"
    case 153 => "JNotLessLong"
    case 154 => "JLessN"
    case 155 => "JLessNLong"
    case 156 => "JNotLessN"
    case 157 => "JNotLessNLong"
    case 158 => "JLessEqual"
    case 159 => "JLessEqualLong"
    case 160 => "JNotLessEqual"
    case 161 => "JNotLessEqualLong"
    case 162 => "JLessEqualN"
    case 163 => "JLessEqualNLong"
    case 164 => "JNotLessEqualN"
    case 165 => "JNotLessEqualNLong"
    case 166 => "JGreater"
    case 167 => "JGreaterLong"
    case 168 => "JNotGreater"
    case 169 => "JNotGreaterLong"
    case 170 => "JGreaterN"
    case 171 => "JGreaterNLong"
    case 172 => "JNotGreaterN"
    case 173 => "JNotGreaterNLong"
    case 174 => "JGreaterEqual"
    case 175 => "JGreaterEqualLong"
    case 176 => "JNotGreaterEqual"
    case 177 => "JNotGreaterEqualLong"
    case 178 => "JGreaterEqualN"
    case 179 => "JGreaterEqualNLong"
    case 180 => "JNotGreaterEqualN"
    case 181 => "JNotGreaterEqualNLong"
    case 182 => "JEqual"
    case 183 => "JEqualLong"
    case 184 => "JNotEqual"
    case 185 => "JNotEqualLong"
    case 186 => "JStrictEqual"
    case 187 => "JStrictEqualLong"
    case 188 => "JStrictNotEqual"
    case 189 => "JStrictNotEqualLong"
    case 190 => "Add32"
    case 191 => "Sub32"
    case 192 => "Mul32"
    case 193 => "Divi32"
    case 194 => "Divu32"
    case 195 => "Loadi8"
    case 196 => "Loadu8"
    case 197 => "Loadi16"
    case 198 => "Loadu16"
    case 199 => "Loadi32"
    case 200 => "Loadu32"
    case 201 => "Store8"
    case 202 => "Store16"
    case 203 => "Store32"
    case _ => ""
  }

  /** The operands of each variant, in declaration order. */
  function Fields(op: Opcode): seq<Field>
  {
    if op < 16 then Fields0(op)
    else if op < 32 then Fields16(op)
    else if op < 48 then Fields32(op)
    else if op < 64 then Fields48(op)
    else if op < 80 then Fields64(op)
    else if op < 96 then Fields80(op)
    else if op < 112 then Fields96(op)
    else if op < 128 then Fields112(op)
    else if op < 144 then Fields128(op)
    else if op < 160 then Fields144(op)
    else if op < 176 then Fields160(op)
    else if op < 192 then Fields176(op)
    else Fields192(op)
  }

  function Fields0(op: Opcode): seq<Field>
  {
    match op
    case 0 => []  // Unreachable
    case 1 => [Field("dst_reg", U8), Field("size_hint", U16), Field("static_elements_num", U16), Field("object_key_buffer_index", U16), Field("object_value_buffer_index", U16)]  // NewObjectWithBuffer
    case 2 => [Field("dst_reg", U8), Field("preallocation_size_hint", U16), Field("static_elements_num", U16), Field("object_key_buffer_index", U32), Field("object_value_buffer_index", U32)]  // NewObjectWithBufferLong
    case 3 => [Field("dst_reg", U8)]  // NewObject
    case 4 => [Field("dst_reg", U8), Field("parent_reg", U8)]  // NewObjectWithParent
    case 5 => [Field("dst_reg", U8), Field("preallocation_size_hint", U16), Field("static_elements_num", U16), Field("array_buffer_table_index", U16)]  // NewArrayWithBuffer
    case 6 => [Field("dst_reg", U8), Field("preallocation_size_hint", U16), Field("static_elements_num", U16), Field("array_buffer_table_index", U32)]  // NewArrayWithBufferLong
    case 7 => [Field("dst_reg", U8), Field("size", U16)]  // NewArray
    case 8 => [Field("dst_reg", U8), Field("src_reg", U8)]  // Mov
    case 9 => [Field("dst_reg", U32), Field("src_reg", U32)]  // MovLong
    case 10 => [Field("dst_reg", U8), Field("src_reg", U8)]  // Negate
    case 11 => [Field("dst_reg", U8), Field("src_reg", U8)]  // Not
    case 12 => [Field("dst_reg", U8), Field("src_reg", U8)]  // BitNot
    case 13 => [Field("dst_reg", U8), Field("src_reg", U8)]  // TypeOf
    case 14 => [Field("dst_reg", U8), Field("arg1_reg", U8), Field("arg2_reg", U8)]  // Eq
    case 15 => [Field("dst_reg", U8), Field("arg1_reg", U8), Field("arg2_reg", U8)]  // StrictEq
    case _ => []
  }

  function Fields16(op: Opcode): seq<Field>
  {
    match op
    case 16 => [Field("dst_reg", U8), Field("arg1_reg", U8), Field("arg2_reg", U8)]  // Neq
    case 17 => [Field("dst_reg", U8), Field("arg1_reg", U8), Field("arg2_reg", U8)]  // StrictNeq
    case 18 => [Field("dst_reg", U8), Field("arg1_reg", U8), Field("arg2_reg", U8)]  // Less
    case 19 => [Field("dst_reg", U8), Field("arg1_reg", U8), Field("arg2_reg", U8)]  // LessEq
    case 20 => [Field("dst_reg", U8), Field("arg1_reg", U8), Field("arg2_reg", U8)]  // Greater
    case 21 => [Field("dst_reg", U8), Field("arg1_reg", U8), Field("arg2_reg", U8)]  // GreaterEq
    case 22 => [Field("dst_reg", U8), Field("arg1_reg", U8), Field("arg2_reg", U8)]  // Add
    case 23 => [Field("dst_reg", U8), Field("arg1_reg", U8), Field("arg2_reg", U8)]  // AddN
    case 24 => [Field("dst_reg", U8), Field("arg1_reg", U8), Field("arg2_reg", U8)]  // Mul
    case 25 => [Field("dst_reg", U8), Field("arg1_reg", U8), Field("arg2_reg", U8)]  // MulN
    case 26 => [Field("dst_reg", U8), Field("arg1_reg", U8), Field("arg2_reg", U8)]  // Div
    case 27 => [Field("dst_reg", U8), Field("arg1_reg", U8), Field("arg2_reg", U8)]  // DivN
    case 28 => [Field("dst_reg", U8), Field("arg1_reg", U8), Field("arg2_reg", U8)]  // Mod
    case 29 => [Field("dst_reg", U8), Field("arg1_reg", U8), Field("arg2_reg", U8)]  // Sub
    case 30 => [Field("dst_reg", U8), Field("arg1_reg", U8), Field("arg2_reg", U8)]  // SubN
    case 31 => [Field("dst_reg", U8), Field("arg1_reg", U8), Field("arg2_reg", U8)]  // LShift
    case _ => []
  }

  function Fields32(op: Opcode): seq<Field>
  {
    match op
    case 32 => [Field("dst_reg", U8), Field("arg1_reg", U8), Field("arg2_reg", U8)]  // RShift
    case 33 => [Field("dst_reg", U8), Field("arg1_reg", U8), Field("arg2_reg", U8)]  // URshift
    case 34 => [Field("dst_reg", U8), Field("arg1_reg", U8), Field("arg2_reg", U8)]  // BitAnd
    case 35 => [Field("dst_reg", U8), Field("arg1_reg", U8), Field("arg2_reg", U8)]  // BitXor
    case 36 => [Field("dst_reg", U8), Field("arg1_reg", U8), Field("arg2_reg", U8)]  // BitOr
    case 37 => [Field("dst_reg", U8), Field("arg_reg", U8)]  // Inc
    case 38 => [Field("dst_reg", U8), Field("arg_reg", U8)]  // Dec
    case 39 => [Field("dst_reg", U8), Field("arg1_reg", U8), Field("arg2_reg", U8)]  // InstanceOf
    case 40 => [Field("dst_reg", U8), Field("arg1_reg", U8), Field("arg2_reg", U8)]  // IsIn
    case 41 => [Field("dst_reg", U8), Field("num_environments", U8)]  // GetEnvironment
    case 42 => [Field("env_reg", U8), Field("env_slot_index", U8), Field("value_reg", U8)]  // StoreToEnvironment
    case 43 => [Field("env_reg", U8), Field("env_slot_index", U16), Field("value_reg", U8)]  // StoreToEnvironmentL
    case 44 => [Field("env_reg", U8), Field("env_slot_index", U8), Field("value_reg", U8)]  // StoreNPToEnvironment
    case 45 => [Field("env_reg", U8), Field("env_slot_index", U16), Field("value_reg", U8)]  // StoreNPToEnvironmentL
    case 46 => [Field("dst_reg", U8), Field("env_reg", U8), Field("env_slot_index", U8)]  // LoadFromEnvironment
    case 47 => [Field("dst_reg", U8), Field("env_reg", U8), Field("env_slot_index", U16)]  // LoadFromEnvironmentL
    case _ => []
  }

  function Fields48(op: Opcode): seq<Field>
  {
    match op
    case 48 => [Field("dst_reg", U8)]  // GetGlobalObject
    case 49 => [Field("dst_reg", U8)]  // GetNewTarget
    case 50 => [Field("dst_reg", U8)]  // CreateEnvironment
    case 51 => [Field("string_table_index", U32)]  // DeclareGlobalVar
    case 52 => [Field("dst_reg", U8), Field("obj_reg", U8), Field("cache_index", U8), Field("string_table_index", U8)]  // GetByIdShort
    case 53 => [Field("dst_reg", U8), Field("obj_reg", U8), Field("cache_index", U8), Field("string_table_index", U16)]  // GetById
    case 54 => [Field("dst_reg", U8), Field("obj_reg", U8), Field("cache_index", U8), Field("string_table_index", U32)]  // GetByIdLong
    case 55 => [Field("dst_reg", U8), Field("obj_reg", U8), Field("cache_index", U8), Field("string_table_index", U16)]  // TryGetById
    case 56 => [Field("dst_reg", U8), Field("obj_reg", U8), Field("cache_index", U8), Field("string_table_index", U32)]  // TryGetByIdLong
    case 57 => [Field("dst_obj_reg", U8), Field("value_reg", U8), Field("cache_index", U8), Field("string_table_index", U16)]  // PutById
    case 58 => [Field("dst_obj_reg", U8), Field("value_reg", U8), Field("cache_index", U8), Field("string_table_index", U32)]  // PutByIdLong
    case 59 => [Field("dst_obj_reg", U8), Field("value_reg", U8), Field("cache_index", U8), Field("string_table_index", U16)]  // TryPutById
    case 60 => [Field("dst_obj_reg", U8), Field("value_reg", U8), Field("cache_index", U8), Field("string_table_index", U32)]  // TryPutByIdLong
    case 61 => [Field("dst_obj_reg", U8), Field("value_reg", U8), Field("string_table_index", U8)]  // PutNewOwnByIdShort
    case 62 => [Field("dst_obj_reg", U8), Field("value_reg", U8), Field("string_table_index", U16)]  // PutNewOwnById
    case 63 => [Field("dst_obj_reg", U8), Field("value_reg", U8), Field("string_table_index", U32)]  // PutNewOwnByIdLong
    case _ => []
  }

  function Fields64(op: Opcode): seq<Field>
  {
    match op
    case 64 => [Field("dst_obj_reg", U8), Field("value_reg", U8), Field("string_table_index", U16)]  // PutNewOwnNEById
    case 65 => [Field("dst_obj_reg", U8), Field("value_reg", U8), Field("string_table_index", U32)]  // PutNewOwnNEByIdLong
    case 66 => [Field("dst_obj_reg", U8), Field("value_reg", U8), Field("index", U8)]  // PutOwnByIndex
    case 67 => [Field("dst_obj_reg", U8), Field("value_reg", U8), Field("index", U32)]  // PutOwnByIndexL
    case 68 => [Field("dst_obj_reg", U8), Field("value_reg", U8), Field("property_name_reg", U8), Field("enumerable", Bool)]  // PutOwnByVal
    case 69 => [Field("dst_reg", U8), Field("obj_reg", U8), Field("string_table_index", U16)]  // DelById
    case 70 => [Field("dst_reg", U8), Field("obj_reg", U8), Field("string_table_index", U32)]  // DelByIdLong
    case 71 => [Field("dst_reg", U8), Field("obj_reg", U8), Field("index_reg", U8)]  // GetByVal
    case 72 => [Field("dst_obj_reg", U8), Field("index_reg", U8), Field("value_reg", U8)]  // PutByVal
    case 73 => [Field("dst_reg", U8), Field("obj_reg", U8), Field("index_reg", U8)]  // DelByVal
    case 74 => [Field("obj_reg", U8), Field("property_name_reg", U8), Field("getter_closure_reg", U8), Field("setter_closure_reg", U8), Field("enumerable", Bool)]  // PutOwnGetterSetterByVal
    case 75 => [Field("dst_reg", U8), Field("obj_reg", U8), Field("iterating_index_reg", U8), Field("property_list_size_reg", U8)]  // GetPNameList
    case 76 => [Field("dst_reg", U8), Field("properties_array_reg", U8), Field("obj_reg", U8), Field("iterating_index_reg", U8), Field("property_list_size_reg", U8)]  // GetNextPName
    case 77 => [Field("dst_reg", U8), Field("closure_reg", U8), Field("arguments_len", U8)]  // Call
    case 78 => [Field("dst_reg", U8), Field("closure_reg", U8), Field("arguments_len", U8)]  // Construct
    case 79 => [Field("dst_reg", U8), Field("closure_reg", U8), Field("argument_reg", U8)]  // Call1
    case _ => []
  }

  function Fields80(op: Opcode): seq<Field>
  {
    match op
    case 80 => [Field("dst_reg", U8), Field("arguments_len", U8), Field("function_table_index", U16)]  // CallDirect
    case 81 => [Field("dst_reg", U8), Field("closure_reg", U8), Field("argument1_reg", U8), Field("argument2_reg", U8)]  // Call2
    case 82 => [Field("dst_reg", U8), Field("closure_reg", U8), Field("argument1_reg", U8), Field("argument2_reg", U8), Field("argument3_reg", U8)]  // Call3
    case 83 => [Field("dst_reg", U8), Field("closure_reg", U8), Field("argument1_reg", U8), Field("argument2_reg", U8), Field("argument3_reg", U8), Field("argument4_reg", U8)]  // Call4
    case 84 => [Field("dst_reg", U8), Field("closure_reg", U8), Field("arguments_len", U32)]  // CallLong
    case 85 => [Field("dst_reg", U8), Field("closure_reg", U8), Field("arguments_len", U32)]  // ConstructLong
    case 86 => [Field("dst_reg", U8), Field("arguments_len", U8), Field("function_table_index", U32)]  // CallDirectLongIndex
    case 87 => [Field("dst_reg", U8), Field("builtin_number", U8), Field("arguments_len", U8)]  // CallBuiltin
    case 88 => [Field("dst_reg", U8), Field("builtin_number", U8), Field("arguments_len", U32)]  // CallBuiltinLong
    case 89 => [Field("dst_reg", U8), Field("builtin_number", U8)]  // GetBuiltinClosure
    case 90 => [Field("value_reg", U8)]  // Ret
    case 91 => [Field("dst_reg", U8)]  // Catch
    case 92 => [Field("dst_reg", U8), Field("value_reg", U8)]  // DirectEval
    case 93 => [Field("value_reg", U8)]  // Throw
    case 94 => [Field("dst_reg", U8), Field("checked_value_reg", U8)]  // ThrowIfEmpty
    case 95 => []  // Debugger
    case _ => []
  }

  function Fields96(op: Opcode): seq<Field>
  {
    match op
    case 96 => []  // AsyncBreakCheck
    case 97 => [Field("function_local_profile_point_index", U16)]  // ProfilePoint
    case 98 => [Field("dst_reg", U8), Field("current_environment_reg", U8), Field("function_table_index", U16)]  // CreateClosure
    case 99 => [Field("dst_reg", U8), Field("current_environment_reg", U8), Field("function_table_index", U32)]  // CreateClosureLongIndex
    case 100 => [Field("dst_reg", U8), Field("current_environment_reg", U8), Field("function_table_index", U16)]  // CreateGeneratorClosure
    case 101 => [Field("dst_reg", U8), Field("current_environment_reg", U8), Field("function_table_index", U32)]  // CreateGeneratorClosureLongIndex
    case 102 => [Field("dst_reg", U8), Field("current_environment_reg", U8), Field("function_table_index", U16)]  // CreateAsyncClosure
    case 103 => [Field("dst_reg", U8), Field("current_environment_reg", U8), Field("function_table_index", U32)]  // CreateAsyncClosureLongIndex
    case 104 => [Field("dst_reg", U8), Field("prototype_reg", U8), Field("constructor_closure_reg", U8)]  // CreateThis
    case 105 => [Field("dst_reg", U8), Field("this_obj_reg", U8), Field("return_value_reg", U8)]  // SelectObject
    case 106 => [Field("dst_reg", U8), Field("param_index", U8)]  // LoadParam
    case 107 => [Field("dst_reg", U8), Field("param_index", U32)]  // LoadParamLong
    case 108 => [Field("dst_reg", U8), Field("value", U8)]  // LoadConstUInt8
    case 109 => [Field("dst_reg", U8), Field("value", I32)]  // LoadConstInt
    case 110 => [Field("dst_reg", U8), Field("value", F64)]  // LoadConstDouble
    case 111 => [Field("dst_reg", U8), Field("bigint_table_index", U16)]  // LoadConstBigInt
    case _ => []
  }

  function Fields112(op: Opcode): seq<Field>
  {
    match op
    case 112 => [Field("dst_reg", U8), Field("bigint_table_index", U32)]  // LoadConstBigIntLongIndex
    case 113 => [Field("dst_reg", U8), Field("string_table_index", U16)]  // LoadConstString
    case 114 => [Field("dst_reg", U8), Field("string_table_index", U32)]  // LoadConstStringLongIndex
    case 115 => [Field("dst_reg", U8)]  // LoadConstEmpty
    case 116 => [Field("dst_reg", U8)]  // LoadConstUndefined
    case 117 => [Field("dst_reg", U8)]  // LoadConstNull
    case 118 => [Field("dst_reg", U8)]  // LoadConstTrue
    case 119 => [Field("dst_reg", U8)]  // LoadConstFalse
    case 120 => [Field("dst_reg", U8)]  // LoadConstZero
    case 121 => [Field("dst_reg", U8), Field("this_value_reg", U8)]  // CoerceThisNS
    case 122 => [Field("dst_this_obj_reg", U8)]  // LoadThisNS
    case 123 => [Field("dst_reg", U8), Field("value_reg", U8)]  // ToNumber
    case 124 => [Field("dst_reg", U8), Field("value_reg", U8)]  // ToNumeric
    case 125 => [Field("dst_reg", U8), Field("value_reg", U8)]  // ToInt32
    case 126 => [Field("dst_reg", U8), Field("value_reg", U8)]  // AddEmptyString
    case 127 => [Field("dst_reg", U8), Field("index_reg", U8), Field("lazy_loaded_reg", U8)]  // GetArgumentsPropByVal
    case _ => []
  }

  function Fields128(op: Opcode): seq<Field>
  {
    match op
    case 128 => [Field("dst_reg", U8), Field("lazy_loaded_reg", U8)]  // GetArgumentsLength
    case 129 => [Field("lazy_loaded_reg", U8)]  // ReifyArguments
    case 130 => [Field("dst_reg", U8), Field("pattern_string_index", U32), Field("flags_string_index", U32), Field("regexp_table_index", U32)]  // CreateRegExp
    case 131 => [Field("value_reg", U8), Field("relative_jump_table_offset", U32), Field("relative_default_jump_offset", I32), Field("min_value", U32), Field("max_value", U32)]  // SwitchImm
    case 132 => []  // StartGenerator
    case 133 => [Field("dst_result_reg", U8), Field("is_return", Bool)]  // ResumeGenerator
    case 134 => []  // CompleteGenerator
    case 135 => [Field("dst_reg", U8), Field("current_environment_reg", U8), Field("function_table_index", U16)]  // CreateGenerator
    case 136 => [Field("dst_reg", U8), Field("current_environment_reg", U8), Field("function_table_index", U32)]  // CreateGeneratorLongIndex
    case 137 => [Field("dst_reg", U8), Field("source_reg", U8)]  // IteratorBegin
    case 138 => [Field("dst_reg", U8), Field("iterator_or_index_reg", U8), Field("source_reg", U8)]  // IteratorNext
    case 139 => [Field("iterator_or_index_reg", U8), Field("ignore_inner_exception", Bool)]  // IteratorClose
    case 140 => [Field("relative_offset", I8)]  // Jmp
    case 141 => [Field("relative_offset", I32)]  // JmpLong
    case 142 => [Field("relative_offset", I8), Field("check_value_reg", U8)]  // JmpTrue
    case 143 => [Field("relative_offset", I32), Field("check_value_reg", U8)]  // JmpTrueLong
    case _ => []
  }

  function Fields144(op: Opcode): seq<Field>
  {
    match op
    case 144 => [Field("relative_offset", I8), Field("check_value_reg", U8)]  // JmpFalse
    case 145 => [Field("relative_offset", I32), Field("check_value_reg", U8)]  // JmpFalseLong
    case 146 => [Field("relative_offset", I8), Field("check_value_reg", U8)]  // JmpUndefined
    case 147 => [Field("relative_offset", I32), Field("check_value_reg", U8)]  // JmpUndefinedLong
    case 148 => [Field("relative_offset", I8)]  // SaveGenerator
    case 149 => [Field("relative_offset", I32)]  // SaveGeneratorLong
    case 150 => [Field("relative_offset", I8), Field("arg1_value_reg", U8), Field("arg2_value_reg", U8)]  // JLess
    case 151 => [Field("relative_offset", I32), Field("arg1_value_reg", U8), Field("arg2_value_reg", U8)]  // JLessLong
    case 152 => [Field("relative_offset", I8), Field("arg1_value_reg", U8), Field("arg2_value_reg", U8)]  // JNotLess
    case 153 => [Field("relative_offset", I32), Field("arg1_value_reg", U8), Field("arg2_value_reg", U8)]  // JNotLessLong
    case 154 => [Field("relative_offset", I8), Field("arg1_value_reg", U8), Field("arg2_value_reg", U8)]  // JLessN
    case 155 => [Field("relative_offset", I32), Field("arg1_value_reg", U8), Field("arg2_value_reg", U8)]  // JLessNLong
    case 156 => [Field("relative_offset", I8), Field("arg1_value_reg", U8), Field("arg2_value_reg", U8)]  // JNotLessN
    case 157 => [Field("relative_offset", I32), Field("arg1_value_reg", U8), Field("arg2_value_reg", U8)]  // JNotLessNLong
    case 158 => [Field("relative_offset", I8), Field("arg1_value_reg", U8), Field("arg2_value_reg", U8)]  // JLessEqual
    case 159 => [Field("relative_offset", I32), Field("arg1_value_reg", U8), Field("arg2_value_reg", U8)]  // JLessEqualLong
    case _ => []
  }

  function Fields160(op: Opcode): seq<Field>
  {
    match op
    case 160 => [Field("relative_offset", I8), Field("arg1_value_reg", U8), Field("arg2_value_reg", U8)]  // JNotLessEqual
    case 161 => [Field("relative_offset", I32), Field("arg1_value_reg", U8), Field("arg2_value_reg", U8)]  // JNotLessEqualLong
    case 162 => [Field("relative_offset", I8), Field("arg1_value_reg", U8), Field("arg2_value_reg", U8)]  // JLessEqualN
    case 163 => [Field("relative_offset", I32), Field("arg1_value_reg", U8), Field("arg2_value_reg", U8)]  // JLessEqualNLong
    case 164 => [Field("relative_offset", I8), Field("arg1_value_reg", U8), Field("arg2_value_reg", U8)]  // JNotLessEqualN
    case 165 => [Field("relative_offset", I32), Field("arg1_value_reg", U8), Field("arg2_value_reg", U8)]  // JNotLessEqualNLong
    case 166 => [Field("relative_offset", I8), Field("arg1_value_reg", U8), Field("arg2_value_reg", U8)]  // JGreater
    case 167 => [Field("relative_offset", I32), Field("arg1_value_reg", U8), Field("arg2_value_reg", U8)]  // JGreaterLong
    case 168 => [Field("relative_offset", I8), Field("arg1_value_reg", U8), Field("arg2_value_reg", U8)]  // JNotGreater
    case 169 => [Field("relative_offset", I32), Field("arg1_value_reg", U8), Field("arg2_value_reg", U8)]  // JNotGreaterLong
    case 170 => [Field("relative_offset", I8), Field("arg1_value_reg", U8), Field("arg2_value_reg", U8)]  // JGreaterN
    case 171 => [Field("relative_offset", I32), Field("arg1_value_reg", U8), Field("arg2_value_reg", U8)]  // JGreaterNLong
    case 172 => [Field("relative_offset", I8), Field("arg1_value_reg", U8), Field("arg2_value_reg", U8)]  // JNotGreaterN
    case 173 => [Field("relative_offset", I32), Field("arg1_value_reg", U8), Field("arg2_value_reg", U8)]  // JNotGreaterNLong
    case 174 => [Field("relative_offset", I8), Field("arg1_value_reg", U8), Field("arg2_value_reg", U8)]  // JGreaterEqual
    case 175 => [Field("relative_offset", I32), Field("arg1_value_reg", U8), Field("arg2_value_reg", U8)]  // JGreaterEqualLong
    case _ => []
  }

  function Fields176(op: Opcode): seq<Field>
  {
    match op
    case 176 => [Field("relative_offset", I8), Field("arg1_value_reg", U8), Field("arg2_value_reg", U8)]  // JNotGreaterEqual
    case 177 => [Field("relative_offset", I32), Field("arg1_value_reg", U8), Field("arg2_value_reg", U8)]  // JNotGreaterEqualLong
    case 178 => [Field("relative_offset", I8), Field("arg1_value_reg", U8), Field("arg2_value_reg", U8)]  // JGreaterEqualN
    case 179 => [Field("relative_offset", I32), Field("arg1_value_reg", U8), Field("arg2_value_reg", U8)]  // JGreaterEqualNLong
    case 180 => [Field("relative_offset", I8), Field("arg1_value_reg", U8), Field("arg2_value_reg", U8)]  // JNotGreaterEqualN
    case 181 => [Field("relative_offset", I32), Field("arg1_value_reg", U8), Field("arg2_value_reg", U8)]  // JNotGreaterEqualNLong
    case 182 => [Field("relative_offset", I8), Field("arg1_value_reg", U8), Field("arg2_value_reg", U8)]  // JEqual
    case 183 => [Field("relative_offset", I32), Field("arg1_value_reg", U8), Field("arg2_value_reg", U8)]  // JEqualLong
    case 184 => [Field("relative_offset", I8), Field("arg1_value_reg", U8), Field("arg2_value_reg", U8)]  // JNotEqual
    case 185 => [Field("relative_offset", I32), Field("arg1_value_reg", U8), Field("arg2_value_reg", U8)]  // JNotEqualLong
    case 186 => [Field("relative_offset", I8), Field("arg1_value_reg", U8), Field("arg2_value_reg", U8)]  // JStrictEqual
    case 187 => [Field("relative_offset", I32), Field("arg1_value_reg", U8), Field("arg2_value_reg", U8)]  // JStrictEqualLong
    case 188 => [Field("relative_offset", I8), Field("arg1_value_reg", U8), Field("arg2_value_reg", U8)]  // JStrictNotEqual
    case 189 => [Field("relative_offset", I32), Field("arg1_value_reg", U8), Field("arg2_value_reg", U8)]  // JStrictNotEqualLong
    case 190 => [Field("dst_reg", U8), Field("arg1_reg", U8), Field("arg2_reg", U8)]  // Add32
    case 191 => [Field("dst_reg", U8), Field("arg1_reg", U8), Field("arg2_reg", U8)]  // Sub32
    case _ => []
  }

  function Fields192(op: Opcode): seq<Field>
  {
    match op
    case 192 => [Field("dst_reg", U8), Field("arg1_reg", U8), Field("arg2_reg", U8)]  // Mul32
    case 193 => [Field("dst_reg", U8), Field("arg1_reg", U8), Field("arg2_reg", U8)]  // Divi32
    case 194 => [Field("dst_reg", U8), Field("arg1_reg", U8), Field("arg2_reg", U8)]  // Divu32
    case 195 => [Field("dst_reg", U8), Field("_unused_reg", U8), Field("heap_index_reg", U8)]  // Loadi8
    case 196 => [Field("dst_reg", U8), Field("_unused_reg", U8), Field("heap_index_reg", U8)]  // Loadu8
    case 197 => [Field("dst_reg", U8), Field("_unused_reg", U8), Field("heap_index_reg", U8)]  // Loadi16
    case 198 => [Field("dst_reg", U8), Field("_unused_reg", U8), Field("heap_index_reg", U8)]  // Loadu16
    case 199 => [Field("dst_reg", U8), Field("_unused_reg", U8), Field("heap_index_reg", U8)]  // Loadi32
    case 200 => [Field("dst_reg", U8), Field("_unused_reg", U8), Field("heap_index_reg", U8)]  // Loadu32
    case 201 => [Field("_unused_reg", U8), Field("heap_index_reg", U8), Field("value_reg", U8)]  // Store8
    case 202 => [Field("_unused_reg", U8), Field("heap_index_reg", U8), Field("value_reg", U8)]  // Store16
    case 203 => [Field("_unused_reg", U8), Field("heap_index_reg", U8), Field("value_reg", U8)]  // Store32
    case _ => []
  }

  /** `JS_BUILTINS`: the builtin function names that `GetBuiltinClosure` indexes. */
  const JS_BUILTINS: seq<string> := [
    "Array.isArray",
    "Date.UTC",
    "Date.parse",
    "JSON.parse",
    "JSON.stringify",
    "Math.abs",
    "Math.acos",
    "Math.asin",
    "Math.atan",
    "Math.atan2",
    "Math.ceil",
    "Math.cos",
    "Math.exp",
    "Math.floor",
    "Math.hypot",
    "Math.imul",
    "Math.log",
    "Math.max",
    "Math.min",
    "Math.pow",
    "Math.round",
    "Math.sin",
    "Math.sqrt",
    "Math.tan",
    "Math.trunc",
    "Object.create",
    "Object.defineProperties",
    "Object.defineProperty",
    "Object.freeze",
    "Object.getOwnPropertyDescriptor",
    "Object.getOwnPropertyNames",
    "Object.getPrototypeOf",
    "Object.isExtensible",
    "Object.isFrozen",
    "Object.keys",
    "Object.seal",
    "String.fromCharCode",
    "silentSetPrototypeOf",
    "requireFast",
    "getTemplateObject",
    "ensureObject",
    "getMethod",
    "throwTypeError",
    "generatorSetDelegated",
    "copyDataProperties",
    "copyRestArgs",
    "arraySpread",
    "apply",
    "exportAll",
    "exponentiationOperator",
    "initRegexNamedGroups",
    "spawnAsync"
  ]

  /** `Unreachable` is the first variant, opcode 0, with no operands. */
  lemma UnreachableIsZero()
    ensures Unreachable == 0 && Name(Unreachable) == "Unreachable" && Fields(Unreachable) == []
  {
  }

  /** The short jumps (including `SaveGenerator`); each is declared right before its `Long` form. */
  predicate IsShortJump(op: Opcode)
  {
    op == Jmp || (JmpTrue <= op <= JStrictNotEqual && op % 2 == 0)
  }

  /** `s` has an `i8` relative offset as its first operand, and the next variant is
   *  `<s>Long`, with an `i32` offset and otherwise the same operands. */
  predicate PairedWithLong(s: Opcode)
  {
    && s as int + 1 < VARIANT_COUNT
    && var l := (s as int + 1) as Opcode;
    && Name(l) == Name(s) + "Long"
    && |Fields(s)| >= 1 && Fields(s)[0] == Field("relative_offset", I8)
    && |Fields(l)| == |Fields(s)| && Fields(l)[0] == Field("relative_offset", I32)
    && Fields(l)[1..] == Fields(s)[1..]
  }

  /** Every jump comes as a short form followed by its `Long` form. */
  lemma JumpFormsPaired(s: Opcode)
    requires IsShortJump(s)
    ensures PairedWithLong(s)
  {
    if s <= SaveGenerator {
      JumpsPaired0(s);
    } else if s <= JLessEqual {
      JumpsPaired1(s);
    } else if s <= JNotGreater {
      JumpsPaired2(s);
    } else if s <= JGreaterEqualN {
      JumpsPaired3(s);
    } else {
      JumpsPaired4(s);
    }
  }

  lemma JumpsPaired0(s: Opcode)
    requires s == Jmp || s == JmpTrue || s == JmpFalse || s == JmpUndefined || s == SaveGenerator
    ensures PairedWithLong(s)
  {
  }

  lemma JumpsPaired1(s: Opcode)
    requires s == JLess || s == JNotLess || s == JLessN || s == JNotLessN || s == JLessEqual
    ensures PairedWithLong(s)
  {
  }

  lemma JumpsPaired2(s: Opcode)
    requires s == JNotLessEqual || s == JLessEqualN || s == JNotLessEqualN || s == JGreater || s == JNotGreater
    ensures PairedWithLong(s)
  {
  }

  lemma JumpsPaired3(s: Opcode)
    requires s == JGreaterN || s == JNotGreaterN || s == JGreaterEqual || s == JNotGreaterEqual || s == JGreaterEqualN
    ensures PairedWithLong(s)
  {
  }

  lemma JumpsPaired4(s: Opcode)
    requires s == JNotGreaterEqualN || s == JEqual || s == JNotEqual || s == JStrictEqual || s == JStrictNotEqual
    ensures PairedWithLong(s)
  {
  }

  /** An operand named `<something>_reg` holds a register number. */
  predicate IsRegisterName(name: string)
  {
    |name| >= 4 && name[|name| - 1] == 'g' && name[|name| - 2] == 'e' && name[|name| - 3] == 'r' && name[|name| - 4] == '_'
  }

  /** Every register operand among `fs` has type `ty`. */
  predicate RegistersOfWidth(fs: seq<Field>, ty: OperandType)
    decreases |fs|
  {
    fs == [] || ((IsRegisterName(fs[0].name) ==> fs[0].ty == ty) && RegistersOfWidth(fs[1..], ty))
  }

  /** `RegistersOfWidth` checks each operand in turn. */
  lemma {:induction false} RegistersOfWidthIff(fs: seq<Field>, ty: OperandType)
    ensures RegistersOfWidth(fs, ty) <==> forall k :: 0 <= k < |fs| && IsRegisterName(fs[k].name) ==> fs[k].ty == ty
    decreases |fs|
  {
    if fs != [] {
      RegistersOfWidthIff(fs[1..], ty);
      assert forall k :: 1 <= k < |fs| ==> fs[k] == fs[1..][k - 1];
    }
  }

  /** `MovLong` moves between registers numbered by `u32`; every other variant
   *  numbers its registers by `u8`. */
  predicate RegisterWidths(op: Opcode)
  {
    RegistersOfWidth(Fields(op), if op == MovLong then U32 else U8)
  }

  /** Register operands are one byte wide, except in `MovLong`, where they are four. */
  lemma RegisterWidthsAll(op: Opcode)
    ensures forall k :: 0 <= k < |Fields(op)| && IsRegisterName(Fields(op)[k].name) ==>
      Fields(op)[k].ty == (if op == MovLong then U32 else U8)
    ensures op == MovLong ==> |Fields(op)| == 2 && IsRegisterName(Fields(op)[0].name) && Fields(op)[0].ty == U32
  {
    if op < 4 {
      RegisterWidths0(op);
    } else if op < 8 {
      RegisterWidths4(op);
    } else if op < 12 {
      RegisterWidths8(op);
    } else if op < 16 {
      RegisterWidths12(op);
    } else if op < 20 {
      RegisterWidths16(op);
    } else if op < 24 {
      RegisterWidths20(op);
    } else if op < 28 {
      RegisterWidths24(op);
    } else if op < 32 {
      RegisterWidths28(op);
    } else if op < 36 {
      RegisterWidths32(op);
    } else if op < 40 {
      RegisterWidths36(op);
    } else if op < 44 {
      RegisterWidths40(op);
    } else if op < 48 {
      RegisterWidths44(op);
    } else if op < 52 {
      RegisterWidths48(op);
    } else if op < 56 {
      RegisterWidths52(op);
    } else if op < 60 {
      RegisterWidths56(op);
    } else if op < 64 {
      RegisterWidths60(op);
    } else if op < 68 {
      RegisterWidths64(op);
    } else if op < 72 {
      RegisterWidths68(op);
    } else if op < 76 {
      RegisterWidths72(op);
    } else if op < 80 {
      RegisterWidths76(op);
    } else if op < 84 {
      RegisterWidths80(op);
    } else if op < 88 {
      RegisterWidths84(op);
    } else if op < 92 {
      RegisterWidths88(op);
    } else if op < 96 {
      RegisterWidths92(op);
    } else if op < 100 {
      RegisterWidths96(op);
    } else if op < 104 {
      RegisterWidths100(op);
    } else if op < 108 {
      RegisterWidths104(op);
    } else if op < 112 {
      RegisterWidths108(op);
    } else if op < 116 {
      RegisterWidths112(op);
    } else if op < 120 {
      RegisterWidths116(op);
    } else if op < 124 {
      RegisterWidths120(op);
    } else if op < 128 {
      RegisterWidths124(op);
    } else if op < 132 {
      RegisterWidths128(op);
    } else if op < 136 {
      RegisterWidths132(op);
    } else if op < 140 {
      RegisterWidths136(op);
    } else if op < 144 {
      RegisterWidths140(op);
    } else if op < 148 {
      RegisterWidths144(op);
    } else if op < 152 {
      RegisterWidths148(op);
    } else if op < 156 {
      RegisterWidths152(op);
    } else if op < 160 {
      RegisterWidths156(op);
    } else if op < 164 {
      RegisterWidths160(op);
    } else if op < 168 {
      RegisterWidths164(op);
    } else if op < 172 {
      RegisterWidths168(op);
    } else if op < 176 {
      RegisterWidths172(op);
    } else if op < 180 {
      RegisterWidths176(op);
    } else if op < 184 {
      RegisterWidths180(op);
    } else if op < 188 {
      RegisterWidths184(op);
    } else if op < 192 {
      RegisterWidths188(op);
    } else if op < 196 {
      RegisterWidths192(op);
    } else if op < 200 {
      RegisterWidths196(op);
    } else {
      RegisterWidths200(op);
    }
    RegistersOfWidthIff(Fields(op), if op == MovLong then U32 else U8);
  }

  lemma RegisterWidths0(op: Opcode)
    requires 0 <= op as int < 4
    ensures RegisterWidths(op)
  {
  }

  lemma RegisterWidths4(op: Opcode)
    requires 4 <= op as int < 8
    ensures RegisterWidths(op)
  {
  }

  lemma RegisterWidths8(op: Opcode)
    requires 8 <= op as int < 12
    ensures RegisterWidths(op)
  {
  }

  lemma RegisterWidths12(op: Opcode)
    requires 12 <= op as int < 16
    ensures RegisterWidths(op)
  {
  }

  lemma RegisterWidths16(op: Opcode)
    requires 16 <= op as int < 20
    ensures RegisterWidths(op)
  {
  }

  lemma RegisterWidths20(op: Opcode)
    requires 20 <= op as int < 24
    ensures RegisterWidths(op)
  {
  }

  lemma RegisterWidths24(op: Opcode)
    requires 24 <= op as int < 28
    ensures RegisterWidths(op)
  {
  }

  lemma RegisterWidths28(op: Opcode)
    requires 28 <= op as int < 32
    ensures RegisterWidths(op)
  {
  }

  lemma RegisterWidths32(op: Opcode)
    requires 32 <= op as int < 36
    ensures RegisterWidths(op)
  {
  }

  lemma RegisterWidths36(op: Opcode)
    requires 36 <= op as int < 40
    ensures RegisterWidths(op)
  {
  }

  lemma RegisterWidths40(op: Opcode)
    requires 40 <= op as int < 44
    ensures RegisterWidths(op)
  {
  }

  lemma RegisterWidths44(op: Opcode)
    requires 44 <= op as int < 48
    ensures RegisterWidths(op)
  {
  }

  lemma RegisterWidths48(op: Opcode)
    requires 48 <= op as int < 52
    ensures RegisterWidths(op)
  {
  }

  lemma RegisterWidths52(op: Opcode)
    requires 52 <= op as int < 56
    ensures RegisterWidths(op)
  {
  }

  lemma RegisterWidths56(op: Opcode)
    requires 56 <= op as int < 60
    ensures RegisterWidths(op)
  {
  }

  lemma RegisterWidths60(op: Opcode)
    requires 60 <= op as int < 64
    ensures RegisterWidths(op)
  {
  }

  lemma RegisterWidths64(op: Opcode)
    requires 64 <= op as int < 68
    ensures RegisterWidths(op)
  {
  }

  lemma RegisterWidths68(op: Opcode)
    requires 68 <= op as int < 72
    ensures RegisterWidths(op)
  {
  }

  lemma RegisterWidths72(op: Opcode)
    requires 72 <= op as int < 76
    ensures RegisterWidths(op)
  {
  }

  lemma RegisterWidths76(op: Opcode)
    requires 76 <= op as int < 80
    ensures RegisterWidths(op)
  {
  }

  lemma RegisterWidths80(op: Opcode)
    requires 80 <= op as int < 84
    ensures RegisterWidths(op)
  {
  }

  lemma RegisterWidths84(op: Opcode)
    requires 84 <= op as int < 88
    ensures RegisterWidths(op)
  {
  }

  lemma RegisterWidths88(op: Opcode)
    requires 88 <= op as int < 92
    ensures RegisterWidths(op)
  {
  }

  lemma RegisterWidths92(op: Opcode)
    requires 92 <= op as int < 96
    ensures RegisterWidths(op)
  {
  }

  lemma RegisterWidths96(op: Opcode)
    requires 96 <= op as int < 100
    ensures RegisterWidths(op)
  {
  }

  lemma RegisterWidths100(op: Opcode)
    requires 100 <= op as int < 104
    ensures RegisterWidths(op)
  {
  }

  lemma RegisterWidths104(op: Opcode)
    requires 104 <= op as int < 108
    ensures RegisterWidths(op)
  {
  }

  lemma RegisterWidths108(op: Opcode)
    requires 108 <= op as int < 112
    ensures RegisterWidths(op)
  {
  }

  lemma RegisterWidths112(op: Opcode)
    requires 112 <= op as int < 116
    ensures RegisterWidths(op)
  {
  }

  lemma RegisterWidths116(op: Opcode)
    requires 116 <= op as int < 120
    ensures RegisterWidths(op)
  {
  }

  lemma RegisterWidths120(op: Opcode)
    requires 120 <= op as int < 124
    ensures RegisterWidths(op)
  {
  }

  lemma RegisterWidths124(op: Opcode)
    requires 124 <= op as int < 128
    ensures RegisterWidths(op)
  {
  }

  lemma RegisterWidths128(op: Opcode)
    requires 128 <= op as int < 132
    ensures RegisterWidths(op)
  {
  }

  lemma RegisterWidths132(op: Opcode)
    requires 132 <= op as int < 136
    ensures RegisterWidths(op)
  {
  }

  lemma RegisterWidths136(op: Opcode)
    requires 136 <= op as int < 140
    ensures RegisterWidths(op)
  {
  }

  lemma RegisterWidths140(op: Opcode)
    requires 140 <= op as int < 144
    ensures RegisterWidths(op)
  {
  }

  lemma RegisterWidths144(op: Opcode)
    requires 144 <= op as int < 148
    ensures RegisterWidths(op)
  {
  }

  lemma RegisterWidths148(op: Opcode)
    requires 148 <= op as int < 152
    ensures RegisterWidths(op)
  {
  }

  lemma RegisterWidths152(op: Opcode)
    requires 152 <= op as int < 156
    ensures RegisterWidths(op)
  {
  }

  lemma RegisterWidths156(op: Opcode)
    requires 156 <= op as int < 160
    ensures RegisterWidths(op)
  {
  }

  lemma RegisterWidths160(op: Opcode)
    requires 160 <= op as int < 164
    ensures RegisterWidths(op)
  {
  }

  lemma RegisterWidths164(op: Opcode)
    requires 164 <= op as int < 168
    ensures RegisterWidths(op)
  {
  }

  lemma RegisterWidths168(op: Opcode)
    requires 168 <= op as int < 172
    ensures RegisterWidths(op)
  {
  }

  lemma RegisterWidths172(op: Opcode)
    requires 172 <= op as int < 176
    ensures RegisterWidths(op)
  {
  }

  lemma RegisterWidths176(op: Opcode)
    requires 176 <= op as int < 180
    ensures RegisterWidths(op)
  {
  }

  lemma RegisterWidths180(op: Opcode)
    requires 180 <= op as int < 184
    ensures RegisterWidths(op)
  {
  }

  lemma RegisterWidths184(op: Opcode)
    requires 184 <= op as int < 188
    ensures RegisterWidths(op)
  {
  }

  lemma RegisterWidths188(op: Opcode)
    requires 188 <= op as int < 192
    ensures RegisterWidths(op)
  {
  }

  lemma RegisterWidths192(op: Opcode)
    requires 192 <= op as int < 196
    ensures RegisterWidths(op)
  {
  }

  lemma RegisterWidths196(op: Opcode)
    requires 196 <= op as int < 200
    ensures RegisterWidths(op)
  {
  }

  lemma RegisterWidths200(op: Opcode)
    requires 200 <= op as int < 204
    ensures RegisterWidths(op)
  {
  }

  lemma BuiltinsCount()
    ensures |JS_BUILTINS| == 52
  {
  }

}

/** The coupling-matrix part of a swerve module's configuration.

    The configuration file holds the differential matrix as an untyped
    nested list. It is checked for shape and element type, copied into a
    2x2 matrix, and inverted. Each malformation has its own error, and a
    singular matrix is rejected. */
module ModuleConfiguration {
  import opened CouplingMatrix

  /** A value read from the configuration file. `Integer` stands for every
      integer-typed number the file format can produce and `Other` for any
      other object (a string, a table). */
  datatype ConfigValue =
    | Null
    | List(items: seq<ConfigValue>)
    | Double(value: real)
    | Integer(n: int)
    | Other

  datatype Option<T> = None | Some(value: T)

  datatype Result<T, E> = Ok(value: T) | Err(error: E)

  /** The five ways the nested list can be malformed. */
  datatype MatrixListError =
    | NotAList
    | NotHeightTwo
    | NotListOfLists
    | NotWidthTwo
    | NonDoubleElement

  /** Why building a configuration fails: a malformed nested list, or a
      forward matrix without an inverse. */
  datatype ConfigurationError =
    | IllegalArgument(cause: MatrixListError)
    | SingularMatrix

  /** The message each malformation is reported with. */
  function Message(e: MatrixListError): string {
    match e
    case NotAList => "Differential matrix is not a list."
    case NotHeightTwo => "Differential matrix does not have height 2."
    case NotListOfLists => "Differential matrix is not a list of lists."
    case NotWidthTwo => "Differential matrix does not have width 2."
    case NonDoubleElement => "Differential matrix contains a non-double element."
  }

  /** Every malformation has a message of its own. */
  lemma MessagesIdentifyTheError(e1: MatrixListError, e2: MatrixListError)
    ensures Message(e1) == Message(e2) <==> e1 == e2
  {
    if e1 != e2 {
      // After the common prefix "Differential matrix ", the messages differ
      // at position 20, 33 or 34.
      var m1, m2 := Message(e1), Message(e2);
      assert m1[20] != m2[20] || m1[33] != m2[33] || m1[34] != m2[34];
    }
  }

  /** The parameter is statically a list, so the only other value a caller
      can pass is null. */
  predicate IsNullableList(v: ConfigValue) {
    v.Null? || v.List?
  }

  /** A row of exactly two doubles. */
  predicate IsRowOfDoubles(row: ConfigValue) {
    row.List? && |row.items| == 2 && forall c :: 0 <= c < 2 ==> row.items[c].Double?
  }

  /** A list of exactly two rows of exactly two doubles each. */
  predicate IsMatrixList(v: ConfigValue) {
    v.List? && |v.items| == 2 && forall r :: 0 <= r < 2 ==> IsRowOfDoubles(v.items[r])
  }

  /** The number in row `r` and column `c` of a well-formed nested list. */
  function Entry(v: ConfigValue, r: nat, c: nat): real
    requires IsMatrixList(v) && r < 2 && c < 2
  {
    v.items[r].items[c].value
  }

  /** The first check a row fails, in the order the rows are checked:
      list, then width, then each element in turn. */
  function RowError(row: ConfigValue): Option<MatrixListError> {
    if !row.List? then Some(NotListOfLists)
    else if |row.items| != 2 then Some(NotWidthTwo)
    else if !row.items[0].Double? || !row.items[1].Double? then Some(NonDoubleElement)
    else None
  }

  /** Reference definition of the conversion: the first violation met when
      the outer list is checked and then the rows are checked one after the
      other, or the matrix of the numbers if there is none. */
  function Convert(list: ConfigValue): Result<Matrix2, MatrixListError>
    requires IsNullableList(list)
  {
    if list.Null? then Err(NotAList)
    else if |list.items| != 2 then Err(NotHeightTwo)
    else if RowError(list.items[0]).Some? then Err(RowError(list.items[0]).value)
    else if RowError(list.items[1]).Some? then Err(RowError(list.items[1]).value)
    else Ok(Matrix2(list.items[0].items[0].value, list.items[0].items[1].value,
                    list.items[1].items[0].value, list.items[1].items[1].value))
  }

  /** Converts the nested list into a 2x2 array of doubles, row by row and
      element by element, stopping at the first malformation. */
  method ConvertObjectListTo2DDoubleArray(list: ConfigValue) returns (r: Result<Matrix2, MatrixListError>)
    requires IsNullableList(list)
    ensures r == Convert(list)
  {
    var arr := new real[2, 2];
    if !list.List? {
      return Err(NotAList);
    }
    var outerList := list.items;
    if |outerList| != 2 {
      return Err(NotHeightTwo);
    }
    var row := 0;
    while row < 2
      invariant 0 <= row <= 2
      invariant forall i :: 0 <= i < row ==> RowError(outerList[i]).None?
      invariant forall i, j :: 0 <= i < row && 0 <= j < 2 ==> arr[i, j] == outerList[i].items[j].value
    {
      var outerItem := outerList[row];
      if !outerItem.List? {
        return Err(NotListOfLists);
      }
      var innerList := outerItem.items;
      if |innerList| != 2 {
        return Err(NotWidthTwo);
      }
      var col := 0;
      while col < 2
        invariant 0 <= col <= 2
        invariant forall j :: 0 <= j < col ==> innerList[j].Double? && arr[row, j] == innerList[j].value
        invariant forall i, j :: 0 <= i < row && 0 <= j < 2 ==> arr[i, j] == outerList[i].items[j].value
      {
        var innerItem := innerList[col];
        if !innerItem.Double? {
          return Err(NonDoubleElement);
        }
        arr[row, col] := innerItem.value;
        col := col + 1;
      }
      row := row + 1;
    }
    return Ok(Matrix2(arr[0, 0], arr[0, 1], arr[1, 0], arr[1, 1]));
  }

  /** The conversion succeeds exactly on two rows of two doubles, and then
      entry (r, c) of the matrix is element c of row r. */
  lemma ConvertSucceedsIff(list: ConfigValue)
    requires IsNullableList(list)
    ensures Convert(list).Ok? <==> IsMatrixList(list)
    ensures Convert(list).Ok? ==>
      forall r, c :: 0 <= r < 2 && 0 <= c < 2 ==> Convert(list).value.At(r, c) == Entry(list, r, c)
  {
    if IsMatrixList(list) {
      assert IsRowOfDoubles(list.items[0]) && IsRowOfDoubles(list.items[1]);
    }
  }

  /** A null matrix is reported as not a list. */
  lemma NullIsNotAList()
    ensures Convert(Null) == Err(NotAList)
  {
  }

  /** A list of the wrong height is rejected before any row is looked at. */
  lemma HeightCheckedBeforeRows(items: seq<ConfigValue>)
    requires |items| != 2
    ensures Convert(List(items)) == Err(NotHeightTwo)
  {
  }

  /** The first row that is not two doubles decides the error: not a list,
      else the wrong width, else a non-double element. */
  lemma FirstBadRowDecides(list: ConfigValue, r: nat)
    requires list.List? && |list.items| == 2 && r < 2
    requires forall i :: 0 <= i < r ==> IsRowOfDoubles(list.items[i])
    ensures !list.items[r].List? ==> Convert(list) == Err(NotListOfLists)
    ensures list.items[r].List? && |list.items[r].items| != 2 ==> Convert(list) == Err(NotWidthTwo)
    ensures list.items[r].List? && |list.items[r].items| == 2 && !IsRowOfDoubles(list.items[r])
      ==> Convert(list) == Err(NonDoubleElement)
  {
    if r == 1 {
      assert IsRowOfDoubles(list.items[0]);
    }
  }

  /** Once row 0 is malformed, row 1 is never examined. */
  lemma SecondRowIgnoredAfterBadFirstRow(row0: ConfigValue, row1: ConfigValue, other: ConfigValue)
    requires !IsRowOfDoubles(row0)
    ensures Convert(List([row0, row1])) == Convert(List([row0, other]))
    ensures Convert(List([row0, row1])).Err?
  {
  }

  /** An integer-typed number is not accepted where a double is expected. */
  lemma IntegerElementRejected(list: ConfigValue, r: nat, c: nat)
    requires list.List? && |list.items| == 2 && r < 2 && c < 2
    requires forall i :: 0 <= i < 2 ==> list.items[i].List? && |list.items[i].items| == 2
    requires list.items[r].items[c].Integer?
    ensures Convert(list) == Err(NonDoubleElement)
  {
    if IsRowOfDoubles(list.items[0]) {
      FirstBadRowDecides(list, 1);
    } else {
      FirstBadRowDecides(list, 0);
    }
  }

  /** The coupling-matrix part of a module's configuration: the forward
      matrix, from [motor0, motor1] to [azimuthSpeed, wheelSpeed], and its
      inverse, from [azimuthSpeed, wheelSpeed] back to [motor0, motor1]. */
  datatype SwerveModuleConfiguration = SwerveModuleConfiguration(forwardMatrix: Matrix2, inverseMatrix: Matrix2)

  /** Reference definition of construction from the configured nested list. */
  function Configure(differentialMatrix: ConfigValue): Result<SwerveModuleConfiguration, ConfigurationError>
    requires IsNullableList(differentialMatrix)
  {
    match Convert(differentialMatrix)
    case Err(e) => Err(IllegalArgument(e))
    case Ok(f) => if Det(f) == 0.0 then Err(SingularMatrix) else Ok(SwerveModuleConfiguration(f, Inverse(f)))
  }

  /** Builds the configuration: converts the nested list, then inverts it. */
  method NewSwerveModuleConfiguration(differentialMatrix: ConfigValue)
    returns (r: Result<SwerveModuleConfiguration, ConfigurationError>)
    requires IsNullableList(differentialMatrix)
    ensures r == Configure(differentialMatrix)
  {
    var converted := ConvertObjectListTo2DDoubleArray(differentialMatrix);
    if converted.Err? {
      return Err(IllegalArgument(converted.error));
    }
    var forward := converted.value;
    if Det(forward) == 0.0 {
      return Err(SingularMatrix);
    }
    return Ok(SwerveModuleConfiguration(forward, Inverse(forward)));
  }

  /** Construction succeeds exactly on a well-formed non-singular matrix;
      the forward matrix holds the configured numbers and the inverse
      matrix is its two-sided inverse, mapping logical rates back to the
      motor rates. A malformed list is reported as such, and a well-formed
      one fails only for being singular. */
  lemma ConfigureSucceedsIff(differentialMatrix: ConfigValue)
    requires IsNullableList(differentialMatrix)
    ensures Configure(differentialMatrix).Ok? <==>
      IsMatrixList(differentialMatrix) && Det(Convert(differentialMatrix).value) != 0.0
    ensures Configure(differentialMatrix).Ok? ==>
      var cfg := Configure(differentialMatrix).value;
      (forall r, c :: 0 <= r < 2 && 0 <= c < 2 ==> cfg.forwardMatrix.At(r, c) == Entry(differentialMatrix, r, c))
      && Mul(cfg.forwardMatrix, cfg.inverseMatrix) == Identity()
      && Mul(cfg.inverseMatrix, cfg.forwardMatrix) == Identity()
      && (forall motors :: Apply(cfg.inverseMatrix, Apply(cfg.forwardMatrix, motors)) == motors)
    ensures Configure(differentialMatrix).Err? ==>
      (Configure(differentialMatrix).error == SingularMatrix <==> IsMatrixList(differentialMatrix))
  {
    ConvertSucceedsIff(differentialMatrix);
    var converted := Convert(differentialMatrix);
    if converted.Ok? && Det(converted.value) != 0.0 {
      InverseIsTwoSided(converted.value);
      forall motors {
        InverseRoundTrip(converted.value, motors, motors);
      }
    }
  }

  /** A singular forward matrix yields no configuration at all: no matrix
      whatever undoes it. */
  lemma SingularMatrixRejected(differentialMatrix: ConfigValue)
    requires IsMatrixList(differentialMatrix)
    requires Det(Convert(differentialMatrix).value) == 0.0
    ensures Configure(differentialMatrix) == Err(SingularMatrix)
    ensures forall n :: Mul(Convert(differentialMatrix).value, n) != Identity()
  {
    ConvertSucceedsIff(differentialMatrix);
    SingularHasNoInverse(Convert(differentialMatrix).value);
  }

  /** The sum/difference coupling [[1, 1], [1, -1]] is inverted to
      [[0.5, 0.5], [0.5, -0.5]]. */
  lemma SumDifferenceCoupling()
    ensures Configure(List([List([Double(1.0), Double(1.0)]), List([Double(1.0), Double(-1.0)])]))
         == Ok(SwerveModuleConfiguration(Matrix2(1.0, 1.0, 1.0, -1.0), Matrix2(0.5, 0.5, 0.5, -0.5)))
  {
  }
}

# Differential swerve module: coupling matrix, Falcon 500 driver, sum motor

This project models the arithmetic layer of a differential swerve module (team 88's swerve library). In this module two physical motors jointly drive the wheel's azimuth and its rotation. It covers three pieces:

- **Coupling-matrix configuration** (`module_configuration.dfy`, `coupling_matrix.dfy`). The configured differential matrix arrives as an untyped nested list. `ConvertObjectListTo2DDoubleArray` validates it and copies it into a 2x2 array with nested row/column loops, stopping at the first malformation. Each malformation has its own error, in this order: not a list, not height 2, not a list of lists, not width 2, non-double element. The configuration keeps that forward matrix, which maps [motor0, motor1] to [azimuthSpeed, wheelSpeed], together with its inverse. A singular matrix fails construction. The reference function `Convert` defines the first violation in traversal order, and the imperative converter is proved equal to it. The inverse is the closed-form 2x2 inverse over `real`. It is proved to be a two-sided inverse and the only one, and a singular matrix is proved to have none.
- **Falcon 500 driver** (`falcon500.dfy`). The class `Falcon500` models the vendor controller as two fields: the raw sensor position in counts and the raw velocity in counts per 100 ms. Percent-output commands are kept as a log. Over these the driver keeps a calibration `offset`, the last `commandVelocity` and the neutral mode. Position is raw / 2048 + offset and velocity is raw × 10 / 2048. Calibration re-zeroes the position exactly and is idempotent.
- **Sum virtual motor** (`differential.dfy`). `PIDMotorSum` reports the sum of the two physical motors' positions plus its own offset, and the sum of their velocities. It hands velocity commands to its `DifferentialMechanism`. The mechanism is modelled only as its two motors plus a log of `setSumVelocity` arguments. Its calibration subtracts the current reading, and that reading already includes the old offset. The next reading is therefore the target minus the old offset, and a second call to the same target restores the old offset (see Findings).

The two calibrations in the source disagree, and the model follows each as written:
- `Falcon500.calibratePosition` is documented to make the current position the given one, and it adds the old offset back to do so (Falcon500.java:55-62).
- `PIDMotorSum.calibratePosition` (PIDMotorSum.java:43-45) does not add the old offset back, so the next reading is the target only when the old offset was zero.

The sum motor's combination is hard-coded as positive + negative. It is not taken from a row of the forward matrix.

## Model

| member | source | states |
|---|---|---|
| `ModuleConfiguration.ConvertObjectListTo2DDoubleArray` | src/main/java/frc/team88/swerve/configuration/SwerveModuleConfiguration.java:131-160 | the nested row/column loop over the 2x2 array returns exactly the reference conversion: the first malformation in traversal order, or the matrix of the numbers |
| `ModuleConfiguration.ConvertSucceedsIff` | src/main/java/frc/team88/swerve/configuration/SwerveModuleConfiguration.java:131-160 | conversion succeeds if and only if the input is two lists of two doubles each, and then entry (r, c) is element c of row r |
| `ModuleConfiguration.NullIsNotAList` | src/main/java/frc/team88/swerve/configuration/SwerveModuleConfiguration.java:133-135 | a null matrix fails with the "not a list" error |
| `ModuleConfiguration.HeightCheckedBeforeRows` | src/main/java/frc/team88/swerve/configuration/SwerveModuleConfiguration.java:137-139 | an outer list whose size is not 2 fails with the "height 2" error, whatever its rows hold |
| `ModuleConfiguration.FirstBadRowDecides` | src/main/java/frc/team88/swerve/configuration/SwerveModuleConfiguration.java:141-159 | the first row that is not two doubles decides the error: "not a list of lists" if it is no list, else "width 2" if its size is not 2, else "non-double element" |
| `ModuleConfiguration.SecondRowIgnoredAfterBadFirstRow` | src/main/java/frc/team88/swerve/configuration/SwerveModuleConfiguration.java:141-149 | when row 0 is malformed the result is an error that does not depend on row 1 |
| `ModuleConfiguration.IntegerElementRejected` | src/main/java/frc/team88/swerve/configuration/SwerveModuleConfiguration.java:152-155 | an integer-typed element in an otherwise 2x2 shape fails with the "non-double element" error |
| `ModuleConfiguration.MessagesIdentifyTheError` | src/main/java/frc/team88/swerve/configuration/SwerveModuleConfiguration.java:133-155 | the five messages are pairwise distinct, so each names its own malformation |
| `ModuleConfiguration.NewSwerveModuleConfiguration` | src/main/java/frc/team88/swerve/configuration/SwerveModuleConfiguration.java:43-44 | construction (validate with the imperative converter, then invert) returns exactly the reference configuration |
| `ModuleConfiguration.ConfigureSucceedsIff` | src/main/java/frc/team88/swerve/configuration/SwerveModuleConfiguration.java:43-44 | construction succeeds if and only if the list is well formed and its determinant is non-zero; the forward matrix holds the configured numbers, forward × inverse = inverse × forward = I, and the inverse maps the logical rates back to the motor rates; a malformed list fails with its malformation, and a well-formed one fails only as singular |
| `ModuleConfiguration.SingularMatrixRejected` | src/main/java/frc/team88/swerve/configuration/SwerveModuleConfiguration.java:44 | a well-formed singular matrix fails construction as singular, and no matrix is a right inverse of it |
| `ModuleConfiguration.SumDifferenceCoupling` | src/main/java/frc/team88/swerve/configuration/SwerveModuleConfiguration.java:71-80 | the sum/difference coupling [[1, 1], [1, -1]] gets the inverse [[0.5, 0.5], [0.5, -0.5]] |
| `CouplingMatrix.InverseIsTwoSided` | src/main/java/frc/team88/swerve/configuration/SwerveModuleConfiguration.java:44 | for a non-zero determinant the closed-form inverse is a left and a right inverse |
| `CouplingMatrix.InverseIsUnique` | src/main/java/frc/team88/swerve/configuration/SwerveModuleConfiguration.java:44 | any right inverse forces a non-zero determinant and equals the closed-form inverse |
| `CouplingMatrix.SingularHasNoInverse` | src/main/java/frc/team88/swerve/configuration/SwerveModuleConfiguration.java:44 | a matrix with determinant 0 has no inverse on either side |
| `CouplingMatrix.InverseRoundTrip` | src/main/java/frc/team88/swerve/configuration/SwerveModuleConfiguration.java:60-80 | the inverse maps [azimuthSpeed, wheelSpeed] back to the [motor0, motor1] that produced them, and the forward matrix maps the inverse's motor rates back to the requested logical rates |
| `CouplingMatrix.DetOfProduct` | src/main/java/frc/team88/swerve/configuration/SwerveModuleConfiguration.java:44 | the determinant of a product is the product of the determinants, which is why a singular matrix cannot be inverted |
| `Motor.Falcon500.constructor` | src/main/java/frc/team88/swerve/module/motor/Falcon500.java:28-38 | a new motor has offset 0, command velocity 0, brake mode and no output command, and its sensor readings are those given |
| `Motor.Falcon500.GetPosition` | src/main/java/frc/team88/swerve/module/motor/Falcon500.java:46-48 | the position minus the offset, times 2048 counts per rotation, is the raw sensor position |
| `Motor.Falcon500.GetVelocity` | src/main/java/frc/team88/swerve/module/motor/Falcon500.java:51-53 | the velocity times 2048 is the raw velocity times 10; it reads only the raw velocity, so no offset or command can change it |
| `Motor.Falcon500.CalibratePosition` | src/main/java/frc/team88/swerve/module/motor/Falcon500.java:55-62 | only the offset changes, to target − old position + old offset; the next position is exactly the target, and the velocity is unchanged |
| `Motor.Falcon500.SetVelocity` | src/main/java/frc/team88/swerve/module/motor/Falcon500.java:65-88 | the controller gets percent output velocity / max speed (`GetMaxVelocity`, lines 70-73), `GetCommandVelocity` (lines 85-88) then returns the argument, and the position (hence the offset) is unchanged; this postcondition is what specifies those two getters |
| `Motor.Falcon500.SetCoast` | src/main/java/frc/team88/swerve/module/motor/Falcon500.java:90-93 | the neutral mode becomes Coast and nothing else changes |
| `Motor.Falcon500.SetBrake` | src/main/java/frc/team88/swerve/module/motor/Falcon500.java:95-98 | the neutral mode becomes Brake and nothing else changes |
| `Motor.CalibrationIsIdempotent` | src/main/java/frc/team88/swerve/module/motor/Falcon500.java:60-62 | two calibrations to the same target leave the same offset and the target as the position; only the offset may change, so the sensor, the command, the neutral mode and the output log are untouched |
| `Differential.PIDMotorSum.constructor` | src/main/java/frc/team88/swerve/swervemodule/motorsensor/differential/PIDMotorSum.java:25-27 | the motor holds the given mechanism, which is a constant from then on, and starts with offset 0 |
| `Differential.PIDMotorSum.GetPosition` | src/main/java/frc/team88/swerve/swervemodule/motorsensor/differential/PIDMotorSum.java:30-34 | the reading minus the offset is the positive motor's position plus the negative motor's |
| `Differential.PIDMotorSum.GetVelocity` | src/main/java/frc/team88/swerve/swervemodule/motorsensor/differential/PIDMotorSum.java:37-40 | the reading is the sum of the two motors' velocities and does not read the offset |
| `Differential.PIDMotorSum.CalibratePosition` | src/main/java/frc/team88/swerve/swervemodule/motorsensor/differential/PIDMotorSum.java:43-45 | only the offset changes, to target − (sensor sum + old offset); the next reading is target − old offset; velocity and both physical motors are untouched |
| `Differential.PIDMotorSum.SetVelocity` | src/main/java/frc/team88/swerve/swervemodule/motorsensor/differential/PIDMotorSum.java:47-50 | exactly one sum-velocity command is appended to the mechanism; the mechanism may change what the two motors are commanded, but the offset and the motors' sensors and offsets are unchanged, so the position and velocity readings are unchanged |
| `Differential.CalibrateTwice` | src/main/java/frc/team88/swerve/swervemodule/motorsensor/differential/PIDMotorSum.java:43-45 | with the motors at rest, the first call reads back target − old offset, and the second call restores the old offset and the uncalibrated reading: the operation is not idempotent |
| `Differential.RecalibrationMissesTarget` | src/main/java/frc/team88/swerve/swervemodule/motorsensor/differential/PIDMotorSum.java:43-45 | both motors at 0 rotations and a fresh sum motor calibrated to 1.0 twice: the reading is 0.0 |
| `Differential.PIDMotorSum.CalibratePositionIntended` | src/main/java/frc/team88/swerve/module/motor/Falcon500.java:55-62 | corrected calibration, written the way the Falcon 500 does it: only the offset changes, and the next reading is exactly the target |
| `Differential.CalibrateTwiceIntended` | src/main/java/frc/team88/swerve/module/motor/Falcon500.java:55-62 | with the corrected calibration, the reading is the target after both the first and the second call |

## Left out

- `populateNetworkTable` of the module configuration and of the azimuth controller configuration is not modelled. It is a dashboard publish/subscribe surface, and its first-call flag only orders that I/O.
- The location, the wheel diameter, the azimuth and wheel controller settings and their getters are not modelled. They are plain copies of configuration fields read through a library that is not part of this model.
- The configuration is modelled only by its coupling matrices, as an immutable value. Its mutable fields are updated only by the dashboard surface, which is left out.
- A configured matrix value that is neither a list nor null would be refused by a cast at the call site, before the validator runs. The model's validator therefore requires a list or null.
- ModuleConfiguration.NewSwerveModuleConfiguration: requires the configured matrix to be a list or null. In the source, any other value makes the constructor fail with a cast error at line 43; the model has no error case for that failure.
- The matrix library's QR-based inverse is replaced by the exact closed-form 2x2 inverse over `real`. Floating-point rounding, the library's singularity threshold and infinite or NaN values are not modelled.
- Motor.Falcon500.SetVelocity: requires a non-zero maximum speed, because exact division by zero is undefined; with floating point the source would command an infinite or NaN percent output.
- Motor.Falcon500.constructor: takes the maximum speed and the initial sensor readings in place of the CAN id and motor configuration. The vendor setup calls (factory default, inversion, feedback-sensor selection, neutral deadband) are hardware I/O and are not modelled, except that the neutral mode starts as Brake.
- `getCurrentDraw` and `getCommandVoltage` of the Falcon 500 are not modelled. They only forward vendor telemetry.
- The raw sensor readings change only when the hardware moves. The model has no operation for that, and clients may assign the fields.
- `DifferentialMechanism` is not part of this model beyond its two motors and a log of the sum velocities it is asked for. How it turns those into physical motor commands is not modelled. Its frame lets a sum command change the two motors' command velocity and output log, and nothing else of theirs. Its motors are `Falcon500` objects, where the source's motor interface admits any implementation.
- The difference virtual motor and the mechanism's recombination of sum and difference commands are not part of this model.

## Findings

| source | as written | input that shows it | evidently intended | confidence | as-written member | corrected member |
|---|---|---|---|---|---|---|
| src/main/java/frc/team88/swerve/swervemodule/motorsensor/differential/PIDMotorSum.java:43-45 | offset := target − getPosition(), where getPosition() already includes the old offset, so the next reading is target − old offset | both motors at 0 rotations, a fresh sum motor, calibratePosition(1.0) called twice: the reading is 0.0, not 1.0 | offset := target − getPosition() + offset, as in Falcon500.java:61, so that the reading is exactly the target after every call | likely; not executed | `Differential.PIDMotorSum.CalibratePosition`, `Differential.RecalibrationMissesTarget` | `Differential.PIDMotorSum.CalibratePositionIntended` |

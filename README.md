# Compression request schemas of the NetsPresso client

This project models the request and response schemas of the NetsPresso
compressor client (`netspresso/compressor/client/schemas/compression.py`)
and the validation that runs when a request is built, before anything is
sent to the remote compression service.

- `wrappers.dfy` (module `Wrappers`): `Option` for a field argument the
  caller leaves out, `Outcome` for one validator, `Result` for building a
  request.
- `compression.dfy` (module `CompressionSchemas`): one datatype per schema.
  There is one `New…` function per schema that has defaults or validation.
  It fills in the defaults, checks the field bounds and runs the root
  validator.
  - Recommendation requests: the ratio rule is written twice. `ValidateRatio`
    follows the source's `if/elif` on the method name. `RatioRange` and
    `RatioAccepted` state the same rule as a per-method table of intervals.
    `ValidateRatio`'s contract proves the two agree.
  - Compression requests: `CompressionParamsValidator` is not part of this
    model. Its verdict is a parameter `paramsOk` that the root validator
    only delegates to.
  - Auto-compression requests: the field bound `gt=0, le=1` is modelled
    in `NewAutoCompressionRequest`.

The ratio is a Dafny `real`. The method names are strings, compared with
`"slamp"` and `"vbmf"` exactly as the source does. Any other name is
another method.

## Model

| member | source | states |
|---|---|---|
| `CompressionSchemas.ValidateRatio` | netspresso/compressor/client/schemas/compression.py:39-48 | the root validator passes exactly the ratios the per-method table accepts: `0 < r <= 1` for "slamp", `-1 <= r <= 1` for "vbmf", any ratio otherwise; a failure only happens for those two methods and carries that method's assertion message |
| `CompressionSchemas.NewRecommendationRequest` | netspresso/compressor/client/schemas/compression.py:33-48 | building a recommendation request succeeds iff the ratio is accepted for the method; on success the fields come back unchanged; a failure happens only for "slamp" or "vbmf" and carries that method's assertion message |
| `CompressionSchemas.SlampAcceptsExactly` | netspresso/compressor/client/schemas/compression.py:44-45 | under "slamp" a request validates iff `0 < ratio <= 1`; ratios 0 and 1.5 are rejected with the SLAMP message |
| `CompressionSchemas.VbmfAcceptsExactly` | netspresso/compressor/client/schemas/compression.py:46-47 | under "vbmf" a request validates iff `-1 <= ratio <= 1`; -1.5 is rejected with the VBMF message; -1, 0 and 1 are accepted |
| `CompressionSchemas.OtherMethodsAcceptAnyRatio` | netspresso/compressor/client/schemas/compression.py:44-48 | any method other than "slamp" and "vbmf" accepts every ratio and returns the request unchanged |
| `CompressionSchemas.SlampStrictlyNarrowerThanVbmf` | netspresso/compressor/client/schemas/compression.py:45-47 | every ratio accepted under "slamp" is accepted under "vbmf", and some ratio accepted under "vbmf" is rejected under "slamp" |
| `CompressionSchemas.EveryMethodAcceptsSomeRatio` | netspresso/compressor/client/schemas/compression.py:44-48 | in the model, under every method name some ratio passes the ratio check (names outside the method literal are not modelled) |
| `CompressionSchemas.RecommendationRevalidationIdempotent` | netspresso/compressor/client/schemas/compression.py:48 | rebuilding an accepted recommendation request from its own fields yields the same request |
| `CompressionSchemas.ValidateCompressionParams` | netspresso/compressor/client/schemas/compression.py:67-75 | the root validator passes iff the parameter check accepts (method, layers); otherwise it fails with a parameter error for that method |
| `CompressionSchemas.NewCompressionRequest` | netspresso/compressor/client/schemas/compression.py:60-75 | building a compression request succeeds iff the parameter check accepts the method and the (defaulted) layers; on success every field is the given or default value, unchanged by validation |
| `CompressionSchemas.CompressionRequestDefaults` | netspresso/compressor/client/schemas/compression.py:63-64 | with layers and options left out, the request is accepted iff the parameter check accepts the method with no layers, and then has no layers and options `{"policy": "average"}` |
| `CompressionSchemas.CompressionRevalidationIdempotent` | netspresso/compressor/client/schemas/compression.py:75 | rebuilding an accepted compression request from its own fields yields the same request |
| `CompressionSchemas.NewAutoCompressionRequest` | netspresso/compressor/client/schemas/compression.py:78-83 | building an auto-compression request succeeds iff `0 < ratio <= 1`, whatever the other fields; `ratio <= 0` fails the `gt=0` bound, `ratio > 1` the `le=1` bound; on success the description defaults to "" |
| `CompressionSchemas.AutoCompressionBoundIsSlampRange` | netspresso/compressor/client/schemas/compression.py:81-82 | the auto-compression ratio bound accepts exactly the ratios "slamp" accepts, with no method involved; a left-out description is "" |
| `CompressionSchemas.CreateCompressionRequestDefaults` | netspresso/compressor/client/schemas/compression.py:9-13 | a create-compression request's description is "" when left out and the given text otherwise |
| `CompressionSchemas.AvailableLayerDefaults` | netspresso/compressor/client/schemas/compression.py:16-23 | a fresh layer has `values = []`, `use = false` and `channels = []`, and its base part equals a fresh base layer of the same name |
| `CompressionSchemas.ResponseDefaults` | netspresso/compressor/client/schemas/compression.py:26-98 | compression (line 30), recommendation (line 57) and available-layer (line 98) responses default their layer lists to empty |

## Left out

- The internals of `CompressionParamsValidator` are not part of this model. They are the `paramsOk` parameter, so properties about them hold for every check. A rejection therefore names the method, not the offending layer.
- The contents of `compression_literal` and `recommendation_literal` are not part of this model. Methods are plain strings, so field validation that rejects names outside those literals is not modelled.
- Pydantic machinery is library behaviour and is left out: type coercion of fields, required-field errors, turning a failed `assert` into a validation error, and collecting several errors into one.
- A root validator that receives a missing field (`None`) after its field validation failed is not modelled. Every field reaches the validator with a value.
- IEEE-754 floats: the ratio is a `real`, so NaN, the infinities and rounding of finite values are left out. The ratio checks are single comparisons against 0, 1 and -1, which floats evaluate exactly, so the accept/reject statements carry over to finite floats.
- The ratio rule of `RecommendationRequest.validate_ratio` is written with Python `assert` statements. Under `python -O` (or `PYTHONOPTIMIZE`) they are stripped and every ratio is accepted. `ValidateRatio`, `NewRecommendationRequest`, `SlampAcceptsExactly`, `VbmfAcceptsExactly`, `SlampStrictlyNarrowerThanVbmf` and `AutoCompressionBoundIsSlampRange` assume asserts are enabled. The `gt=0, le=1` bound of `AutoCompressionRequest` is a field constraint and applies in both modes, so `NewAutoCompressionRequest` holds either way.
- `List[Any]` parameter values are narrowed to integers, reals and text (`ParamValue`).
- The model spells `GetAvailableLayersReponse` (netspresso/compressor/client/schemas/compression.py:96) as `GetAvailableLayersResponse`.
- `UploadDatasetRequest` and `GetAvailableLayersRequest` (netspresso/compressor/client/schemas/compression.py:86-93) have only required fields, no defaults and no validation, so they have no datatype here.
- Login, model upload, remote conversion, benchmarking and download are network I/O against the remote service and are left out. So are the factory methods of the top-level client object.
- The device-name filter and the job polling live in `netspresso.launcher`, outside the compression schemas. In the launcher example scripts the polling loop is commented out.

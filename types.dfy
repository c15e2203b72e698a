/**
 * The record shapes of the prompt builder: the closed set of prompting
 * techniques, the form inputs, the catalog entry of a technique and a task
 * preset (types.ts).
 */
module Types {
  import opened Wrappers

  /** The six prompting techniques, in declaration order. */
  datatype TechniqueType = ZeroShot | Cot | FewShot | Role | Emotion | StepBack

  /** Every technique once, in declaration order. */
  const AllTechniques: seq<TechniqueType> := [ZeroShot, Cot, FewShot, Role, Emotion, StepBack]

  /** The enumeration is closed: the list above names every value exactly once. */
  lemma AllTechniquesClosed()
    ensures |AllTechniques| == 6
    ensures forall t: TechniqueType :: t in AllTechniques
    ensures forall i, j :: 0 <= i < j < |AllTechniques| ==> AllTechniques[i] != AllTechniques[j]
  {
    forall t: TechniqueType ensures t in AllTechniques {
      match t
      case ZeroShot => assert AllTechniques[0] == t;
      case Cot => assert AllTechniques[1] == t;
      case FewShot => assert AllTechniques[2] == t;
      case Role => assert AllTechniques[3] == t;
      case Emotion => assert AllTechniques[4] == t;
      case StepBack => assert AllTechniques[5] == t;
    }
  }

  /**
   * The form inputs. The five common fields are mandatory strings; the
   * technique-specific ones are optional in the record type but always
   * initialised by the application, so they are plain strings here.
   */
  datatype PromptInputs = PromptInputs(
    productName: string,
    category: string,
    targetAudience: string,
    keyFeatures: string,
    task: string,
    steps: string,
    examples: string,
    role: string,
    perspective: string,
    emotion: string,
    attitude: string,
    goal: string,
    criteria: string)

  /** The names of the fields of `PromptInputs`. */
  datatype Field =
    | ProductName | Category | TargetAudience | KeyFeatures | Task
    | Steps | Examples | RoleName | Perspective | EmotionName | Attitude | Goal | Criteria

  /** The value of one field. */
  function Get(inputs: PromptInputs, f: Field): string {
    match f
    case ProductName => inputs.productName
    case Category => inputs.category
    case TargetAudience => inputs.targetAudience
    case KeyFeatures => inputs.keyFeatures
    case Task => inputs.task
    case Steps => inputs.steps
    case Examples => inputs.examples
    case RoleName => inputs.role
    case Perspective => inputs.perspective
    case EmotionName => inputs.emotion
    case Attitude => inputs.attitude
    case Goal => inputs.goal
    case Criteria => inputs.criteria
  }

  /** The record spread `{...inputs, [f]: v}`: exactly field `f` becomes `v`. */
  function Set(inputs: PromptInputs, f: Field, v: string): (r: PromptInputs)
    ensures Get(r, f) == v
    ensures forall g :: g != f ==> Get(r, g) == Get(inputs, g)
  {
    match f
    case ProductName => inputs.(productName := v)
    case Category => inputs.(category := v)
    case TargetAudience => inputs.(targetAudience := v)
    case KeyFeatures => inputs.(keyFeatures := v)
    case Task => inputs.(task := v)
    case Steps => inputs.(steps := v)
    case Examples => inputs.(examples := v)
    case RoleName => inputs.(role := v)
    case Perspective => inputs.(perspective := v)
    case EmotionName => inputs.(emotion := v)
    case Attitude => inputs.(attitude := v)
    case Goal => inputs.(goal := v)
    case Criteria => inputs.(criteria := v)
  }

  /** Two records that agree on every field are the same record. */
  lemma FieldsDetermineInputs(a: PromptInputs, b: PromptInputs)
    requires forall f :: Get(a, f) == Get(b, f)
    ensures a == b
  {
    assert Get(a, ProductName) == Get(b, ProductName);
    assert Get(a, Category) == Get(b, Category);
    assert Get(a, TargetAudience) == Get(b, TargetAudience);
    assert Get(a, KeyFeatures) == Get(b, KeyFeatures);
    assert Get(a, Task) == Get(b, Task);
    assert Get(a, Steps) == Get(b, Steps);
    assert Get(a, Examples) == Get(b, Examples);
    assert Get(a, RoleName) == Get(b, RoleName);
    assert Get(a, Perspective) == Get(b, Perspective);
    assert Get(a, EmotionName) == Get(b, EmotionName);
    assert Get(a, Attitude) == Get(b, Attitude);
    assert Get(a, Goal) == Get(b, Goal);
    assert Get(a, Criteria) == Get(b, Criteria);
  }

  /** The technique a technique-specific field belongs to; `None` for a common field. */
  function Owner(f: Field): (t: Option<TechniqueType>)
    ensures t.None? <==> f in {ProductName, Category, TargetAudience, KeyFeatures, Task}
  {
    match f
    case Steps => Some(Cot)
    case Examples => Some(FewShot)
    case RoleName => Some(Role)
    case Perspective => Some(Role)
    case EmotionName => Some(Emotion)
    case Attitude => Some(Emotion)
    case Goal => Some(StepBack)
    case Criteria => Some(StepBack)
    case _ => None
  }

  /** Zero-shot is the one technique that owns no input field; every other one owns some. */
  lemma ZeroShotOwnsNoField(t: TechniqueType)
    ensures (exists f :: Owner(f) == Some(t)) <==> t != ZeroShot
  {
    match t
    case Cot => assert Owner(Steps) == Some(t);
    case FewShot => assert Owner(Examples) == Some(t);
    case Role => assert Owner(RoleName) == Some(t);
    case Emotion => assert Owner(EmotionName) == Some(t);
    case StepBack => assert Owner(Goal) == Some(t);
    case ZeroShot =>
  }

  /** The optional explanation attached to a catalog entry. */
  datatype Detail = Detail(concept: string, example: string)

  /** A catalog entry; icons are represented by their names. */
  datatype TechniqueInfo = TechniqueInfo(
    kind: TechniqueType,
    title: string,
    subtitle: string,
    description: string,
    icon: string,
    effect: string,
    detail: Option<Detail>)

  /** A task template the user can pick. */
  datatype PresetTemplate = PresetTemplate(id: string, name: string, task: string, icon: string)
}

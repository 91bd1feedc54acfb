/** Character components: the 52-bone humanoid rig with its name
    matching, the locomotion states, the locomotion state component with
    its blend timer, and the per-character animation set. Entities and asset
    handles are plain numbers. */
module CharacterComponents {
  import opened Common

  // ---------------------------------------------------------------------
  // Bones

  /** `HumanoidBone`, in declaration order. */
  datatype HumanoidBone =
      Hips
    | Spine
    | Spine1
    | Spine2
    | Neck
    | Head
    | LeftShoulder
    | LeftArm
    | LeftForeArm
    | LeftHand
    | LeftHandThumb1
    | LeftHandThumb2
    | LeftHandThumb3
    | LeftHandIndex1
    | LeftHandIndex2
    | LeftHandIndex3
    | LeftHandMiddle1
    | LeftHandMiddle2
    | LeftHandMiddle3
    | LeftHandRing1
    | LeftHandRing2
    | LeftHandRing3
    | LeftHandPinky1
    | LeftHandPinky2
    | LeftHandPinky3
    | RightShoulder
    | RightArm
    | RightForeArm
    | RightHand
    | RightHandThumb1
    | RightHandThumb2
    | RightHandThumb3
    | RightHandIndex1
    | RightHandIndex2
    | RightHandIndex3
    | RightHandMiddle1
    | RightHandMiddle2
    | RightHandMiddle3
    | RightHandRing1
    | RightHandRing2
    | RightHandRing3
    | RightHandPinky1
    | RightHandPinky2
    | RightHandPinky3
    | LeftUpLeg
    | LeftLeg
    | LeftFoot
    | LeftToeBase
    | RightUpLeg
    | RightLeg
    | RightFoot
    | RightToeBase

  /** `bone as usize`: the declaration index. */
  function BoneIndex(b: HumanoidBone): nat
  {
    match b
    case Hips => 0
    case Spine => 1
    case Spine1 => 2
    case Spine2 => 3
    case Neck => 4
    case Head => 5
    case LeftShoulder => 6
    case LeftArm => 7
    case LeftForeArm => 8
    case LeftHand => 9
    case LeftHandThumb1 => 10
    case LeftHandThumb2 => 11
    case LeftHandThumb3 => 12
    case LeftHandIndex1 => 13
    case LeftHandIndex2 => 14
    case LeftHandIndex3 => 15
    case LeftHandMiddle1 => 16
    case LeftHandMiddle2 => 17
    case LeftHandMiddle3 => 18
    case LeftHandRing1 => 19
    case LeftHandRing2 => 20
    case LeftHandRing3 => 21
    case LeftHandPinky1 => 22
    case LeftHandPinky2 => 23
    case LeftHandPinky3 => 24
    case RightShoulder => 25
    case RightArm => 26
    case RightForeArm => 27
    case RightHand => 28
    case RightHandThumb1 => 29
    case RightHandThumb2 => 30
    case RightHandThumb3 => 31
    case RightHandIndex1 => 32
    case RightHandIndex2 => 33
    case RightHandIndex3 => 34
    case RightHandMiddle1 => 35
    case RightHandMiddle2 => 36
    case RightHandMiddle3 => 37
    case RightHandRing1 => 38
    case RightHandRing2 => 39
    case RightHandRing3 => 40
    case RightHandPinky1 => 41
    case RightHandPinky2 => 42
    case RightHandPinky3 => 43
    case LeftUpLeg => 44
    case LeftLeg => 45
    case LeftFoot => 46
    case LeftToeBase => 47
    case RightUpLeg => 48
    case RightLeg => 49
    case RightFoot => 50
    case RightToeBase => 51
  }

  /** The Mixamo name without its `mixamorig:` prefix. */
  function BaseName(b: HumanoidBone): string
  {
    match b
    case Hips => "Hips"
    case Spine => "Spine"
    case Spine1 => "Spine1"
    case Spine2 => "Spine2"
    case Neck => "Neck"
    case Head => "Head"
    case LeftShoulder => "LeftShoulder"
    case LeftArm => "LeftArm"
    case LeftForeArm => "LeftForeArm"
    case LeftHand => "LeftHand"
    case LeftHandThumb1 => "LeftHandThumb1"
    case LeftHandThumb2 => "LeftHandThumb2"
    case LeftHandThumb3 => "LeftHandThumb3"
    case LeftHandIndex1 => "LeftHandIndex1"
    case LeftHandIndex2 => "LeftHandIndex2"
    case LeftHandIndex3 => "LeftHandIndex3"
    case LeftHandMiddle1 => "LeftHandMiddle1"
    case LeftHandMiddle2 => "LeftHandMiddle2"
    case LeftHandMiddle3 => "LeftHandMiddle3"
    case LeftHandRing1 => "LeftHandRing1"
    case LeftHandRing2 => "LeftHandRing2"
    case LeftHandRing3 => "LeftHandRing3"
    case LeftHandPinky1 => "LeftHandPinky1"
    case LeftHandPinky2 => "LeftHandPinky2"
    case LeftHandPinky3 => "LeftHandPinky3"
    case RightShoulder => "RightShoulder"
    case RightArm => "RightArm"
    case RightForeArm => "RightForeArm"
    case RightHand => "RightHand"
    case RightHandThumb1 => "RightHandThumb1"
    case RightHandThumb2 => "RightHandThumb2"
    case RightHandThumb3 => "RightHandThumb3"
    case RightHandIndex1 => "RightHandIndex1"
    case RightHandIndex2 => "RightHandIndex2"
    case RightHandIndex3 => "RightHandIndex3"
    case RightHandMiddle1 => "RightHandMiddle1"
    case RightHandMiddle2 => "RightHandMiddle2"
    case RightHandMiddle3 => "RightHandMiddle3"
    case RightHandRing1 => "RightHandRing1"
    case RightHandRing2 => "RightHandRing2"
    case RightHandRing3 => "RightHandRing3"
    case RightHandPinky1 => "RightHandPinky1"
    case RightHandPinky2 => "RightHandPinky2"
    case RightHandPinky3 => "RightHandPinky3"
    case LeftUpLeg => "LeftUpLeg"
    case LeftLeg => "LeftLeg"
    case LeftFoot => "LeftFoot"
    case LeftToeBase => "LeftToeBase"
    case RightUpLeg => "RightUpLeg"
    case RightLeg => "RightLeg"
    case RightFoot => "RightFoot"
    case RightToeBase => "RightToeBase"
  }

  /** The bone at each position of `all_bones`, in hierarchical order. */
  function BoneAt(i: nat): HumanoidBone
    requires i < BoneCount
  {
    match i
    case 0 => Hips
    case 1 => Spine
    case 2 => Spine1
    case 3 => Spine2
    case 4 => Neck
    case 5 => Head
    case 6 => LeftShoulder
    case 7 => LeftArm
    case 8 => LeftForeArm
    case 9 => LeftHand
    case 10 => LeftHandThumb1
    case 11 => LeftHandThumb2
    case 12 => LeftHandThumb3
    case 13 => LeftHandIndex1
    case 14 => LeftHandIndex2
    case 15 => LeftHandIndex3
    case 16 => LeftHandMiddle1
    case 17 => LeftHandMiddle2
    case 18 => LeftHandMiddle3
    case 19 => LeftHandRing1
    case 20 => LeftHandRing2
    case 21 => LeftHandRing3
    case 22 => LeftHandPinky1
    case 23 => LeftHandPinky2
    case 24 => LeftHandPinky3
    case 25 => RightShoulder
    case 26 => RightArm
    case 27 => RightForeArm
    case 28 => RightHand
    case 29 => RightHandThumb1
    case 30 => RightHandThumb2
    case 31 => RightHandThumb3
    case 32 => RightHandIndex1
    case 33 => RightHandIndex2
    case 34 => RightHandIndex3
    case 35 => RightHandMiddle1
    case 36 => RightHandMiddle2
    case 37 => RightHandMiddle3
    case 38 => RightHandRing1
    case 39 => RightHandRing2
    case 40 => RightHandRing3
    case 41 => RightHandPinky1
    case 42 => RightHandPinky2
    case 43 => RightHandPinky3
    case 44 => LeftUpLeg
    case 45 => LeftLeg
    case 46 => LeftFoot
    case 47 => LeftToeBase
    case 48 => RightUpLeg
    case 49 => RightLeg
    case 50 => RightFoot
    case _ => RightToeBase
  }

  /** `all_bones`: every bone, in hierarchical order. */
  function AllBones(): (bs: seq<HumanoidBone>)
    ensures |bs| == BoneCount
    ensures forall i :: 0 <= i < BoneCount ==> bs[i] == BoneAt(i)
  {
    seq(BoneCount, i requires 0 <= i < BoneCount => BoneAt(i))
  }

  /** `HumanoidBone::VARIANT_COUNT`. */
  const BoneCount: nat := 52

  /** `mixamo_name`: the canonical name used by Mixamo rigs. */
  function MixamoName(b: HumanoidBone): string
  {
    "mixamorig:" + BaseName(b)
  }

  lemma BoneAtIndex(i: nat)
    requires i < BoneCount
    ensures BoneIndex(BoneAt(i)) == i
  {
  }

  lemma IndexBoneAt(b: HumanoidBone)
    ensures BoneIndex(b) < BoneCount && BoneAt(BoneIndex(b)) == b
  {
    var i := BoneIndex(b);
    if i < 13 {
      IndexBoneAtTorsoAndLeftHand(b);
    } else if i < 26 {
      IndexBoneAtLeftFingers(b);
    } else if i < 39 {
      IndexBoneAtRightHand(b);
    } else {
      IndexBoneAtRightFingersAndLegs(b);
    }
  }

  lemma IndexBoneAtTorsoAndLeftHand(b: HumanoidBone)
    requires BoneIndex(b) < 13
    ensures BoneAt(BoneIndex(b)) == b
  {
  }

  lemma IndexBoneAtLeftFingers(b: HumanoidBone)
    requires 13 <= BoneIndex(b) < 26
    ensures BoneAt(BoneIndex(b)) == b
  {
  }

  lemma IndexBoneAtRightHand(b: HumanoidBone)
    requires 26 <= BoneIndex(b) < 39
    ensures BoneAt(BoneIndex(b)) == b
  {
  }

  lemma IndexBoneAtRightFingersAndLegs(b: HumanoidBone)
    requires 39 <= BoneIndex(b) < 52
    ensures BoneAt(BoneIndex(b)) == b
  {
  }

  /** `all_bones` lists every bone exactly once, each at its own index, so
      it has `VARIANT_COUNT` entries and no duplicates. */
  lemma AllBonesIndexed()
    ensures |AllBones()| == BoneCount
    ensures forall i :: 0 <= i < |AllBones()| ==> BoneIndex(AllBones()[i]) == i
    ensures forall b :: BoneIndex(b) < BoneCount && AllBones()[BoneIndex(b)] == b
  {
    forall i | 0 <= i < |AllBones()| ensures BoneIndex(AllBones()[i]) == i {
      BoneAtIndex(i);
    }
    forall b ensures BoneIndex(b) < BoneCount && AllBones()[BoneIndex(b)] == b {
      IndexBoneAt(b);
    }
  }

  lemma AllBonesDistinct()
    ensures forall i, j :: 0 <= i < j < |AllBones()| ==> AllBones()[i] != AllBones()[j]
    ensures forall b :: b in AllBones()
  {
    AllBonesIndexed();
    forall b ensures b in AllBones() {
      assert AllBones()[BoneIndex(b)] == b;
    }
  }

  lemma BoneIndexInjective(b: HumanoidBone, c: HumanoidBone)
    requires BoneIndex(b) == BoneIndex(c)
    ensures b == c
  {
    AllBonesIndexed();
  }

  // ---------------------------------------------------------------------
  // Bone name matching

  /** `str::strip_prefix`. */
  function StripPrefix(s: string, prefix: string): (r: Option<string>)
    ensures r.Some? <==> prefix <= s
    ensures r.Some? ==> s == prefix + r.value
  {
    if prefix <= s then Some(s[|prefix|..]) else None
  }

  /** The skeleton-side name with the first of the `mixamorig:`,
      `Character1_` and `Armature_` prefixes it carries removed. */
  function StripInput(name: string): string
  {
    match StripPrefix(name, "mixamorig:")
    case Some(r) => r
    case None =>
      match StripPrefix(name, "Character1_")
      case Some(r) => r
      case None =>
        match StripPrefix(name, "Armature_")
        case Some(r) => r
        case None => name
  }

  /** A skeleton name denotes a bone: exactly its Mixamo name, or its base
      name once a known prefix is stripped. */
  predicate NameMatches(name: string, b: HumanoidBone)
  {
    name == MixamoName(b) || StripInput(name) == BaseName(b)
  }

  /** The first bone of `bones` that `name` denotes. */
  function FirstMatch(bones: seq<HumanoidBone>, name: string): Option<HumanoidBone>
  {
    if bones == [] then None
    else if NameMatches(name, bones[0]) then Some(bones[0])
    else FirstMatch(bones[1..], name)
  }

  /** The first match is a bone of the list that the name denotes, and
      there is none exactly when no bone of the list matches. */
  lemma {:induction false} FirstMatchSound(bones: seq<HumanoidBone>, name: string)
    ensures FirstMatch(bones, name).Some? ==>
              FirstMatch(bones, name).value in bones && NameMatches(name, FirstMatch(bones, name).value)
    ensures FirstMatch(bones, name).None? <==> forall b :: b in bones ==> !NameMatches(name, b)
  {
    if bones != [] {
      FirstMatchSound(bones[1..], name);
      assert forall b :: b in bones ==> b == bones[0] || b in bones[1..];
    }
  }

  /** The bone `from_skeleton` assigns a name to: the first in hierarchical
      order that the name denotes. */
  function MatchBone(name: string): Option<HumanoidBone>
  {
    FirstMatch(AllBones(), name)
  }

  /** A name that denotes no bone at all is left unassigned. */
  lemma MatchBoneNone(name: string)
    ensures MatchBone(name).None? <==> forall b :: !NameMatches(name, b)
  {
    FirstMatchSound(AllBones(), name);
    AllBonesDistinct();
  }

  /** The inner loop of `from_skeleton`: try the bones in order, exact name
      first, then the stripped name, and stop at the first that fits. */
  method FindBone(name: string) returns (r: Option<HumanoidBone>)
    ensures r == MatchBone(name)
    ensures r.Some? ==> NameMatches(name, r.value)
  {
    FirstMatchSound(AllBones(), name);
    var bones := AllBones();
    var j := 0;
    r := None;
    while j < |bones|
      invariant j <= |bones|
      invariant FirstMatch(bones, name) == FirstMatch(bones[j..], name)
    {
      var canonical := MixamoName(bones[j]);
      if name == canonical {
        r := Some(bones[j]);
        return;
      }
      var baseName := BaseName(bones[j]);
      var stripped := StripInput(name);
      if stripped == baseName {
        r := Some(bones[j]);
        return;
      }
      assert bones[j..][1..] == bones[j + 1..];
      j := j + 1;
    }
  }

  /** The stripped forms the engine accepts: each prefix is removed. */
  lemma StripKnownPrefixes(x: string)
    ensures StripInput("mixamorig:" + x) == x
    ensures StripInput("Character1_" + x) == x
    ensures StripInput("Armature_" + x) == x
  {
    assert ("mixamorig:" + x)[|"mixamorig:"|..] == x;
    assert ("Character1_" + x)[0] == 'C' != "mixamorig:"[0];
    assert ("Character1_" + x)[|"Character1_"|..] == x;
    assert ("Armature_" + x)[0] == 'A' != "mixamorig:"[0];
    assert ("Armature_" + x)[0] != "Character1_"[0];
    assert ("Armature_" + x)[|"Armature_"|..] == x;
  }

  /** A bone's Mixamo name, and its base name behind any known prefix, all
      denote that bone. */
  lemma PrefixedNamesMatch(b: HumanoidBone)
    ensures NameMatches(MixamoName(b), b)
    ensures NameMatches("Character1_" + BaseName(b), b)
    ensures NameMatches("Armature_" + BaseName(b), b)
    ensures MatchBone("Character1_" + BaseName(b)).Some? && MatchBone("Armature_" + BaseName(b)).Some?
  {
    StripKnownPrefixes(BaseName(b));
    AllBonesDistinct();
    assert b in AllBones();
    FirstMatchSound(AllBones(), "Character1_" + BaseName(b));
    FirstMatchSound(AllBones(), "Armature_" + BaseName(b));
  }

  /** The first match is the bone at `k` when it matches and none before
      it does. */
  lemma {:induction false} FirstMatchAt(bones: seq<HumanoidBone>, name: string, k: nat)
    requires k < |bones| && NameMatches(name, bones[k])
    requires forall j :: 0 <= j < k ==> !NameMatches(name, bones[j])
    ensures FirstMatch(bones, name) == Some(bones[k])
  {
    if k > 0 {
      assert !NameMatches(name, bones[0]);
      FirstMatchAt(bones[1..], name, k - 1);
    }
  }

  /** The names of the rig test resolve to their bones. */
  lemma TestNameHips()
    ensures MatchBone("mixamorig:Hips") == Some(Hips)
  {
    assert MixamoName(BoneAt(0)) == "mixamorig:Hips";
    FirstMatchAt(AllBones(), "mixamorig:Hips", 0);
  }

  lemma TestNameSpine()
    ensures MatchBone("mixamorig:Spine") == Some(Spine)
  {
    SpineNameFacts();
    FirstTwoBones();
    FirstMatchAt(AllBones(), "mixamorig:Spine", 1);
  }

  /** `mixamorig:Spine` denotes the spine and not the hips. */
  lemma SpineNameFacts()
    ensures NameMatches("mixamorig:Spine", Spine) && !NameMatches("mixamorig:Spine", Hips)
  {
    var name := "mixamorig:Spine";
    StripKnownPrefixes("Spine");
    assert name == "mixamorig:" + "Spine";
    assert name != MixamoName(Hips) by { assert name[10] != MixamoName(Hips)[10]; }
    assert StripInput(name) != BaseName(Hips) by { assert |BaseName(Hips)| != |"Spine"|; }
  }

  /** Hierarchical order starts with the hips, then the spine. */
  lemma FirstTwoBones()
    ensures |AllBones()| > 1 && AllBones()[0] == Hips && AllBones()[1] == Spine
  {
  }

  /** The bone each name matches, in name order. */
  function Matches(names: seq<string>): (ms: seq<Option<HumanoidBone>>)
    ensures |ms| == |names| && forall k :: 0 <= k < |names| ==> ms[k] == MatchBone(names[k])
  {
    seq(|names|, k requires 0 <= k < |names| => MatchBone(names[k]))
  }

  /** The index `from_skeleton` stores for bone `b`, given the bone each
      name matched: the last position that matched `b`. */
  function LastAssigned(ms: seq<Option<HumanoidBone>>, b: HumanoidBone): (r: Option<nat>)
    ensures r.Some? ==> r.value < |ms| && ms[r.value] == Some(b)
    ensures r.Some? ==> forall k :: r.value < k < |ms| ==> ms[k] != Some(b)
    ensures r.None? ==> forall k :: 0 <= k < |ms| ==> ms[k] != Some(b)
  {
    if ms == [] then None
    else if ms[|ms| - 1] == Some(b) then Some(|ms| - 1)
    else LastAssigned(ms[..|ms| - 1], b)
  }

  lemma MatchesStep(names: seq<string>, i: nat, ms: seq<Option<HumanoidBone>>, m: Option<HumanoidBone>)
    requires i < |names| && ms == Matches(names)[..i] && m == MatchBone(names[i])
    ensures ms + [m] == Matches(names)[..i + 1]
  {
  }

  lemma LastAssignedStep(ms: seq<Option<HumanoidBone>>, m: Option<HumanoidBone>)
    ensures forall b :: LastAssigned(ms + [m], b) == if m == Some(b) then Some(|ms|) else LastAssigned(ms, b)
  {
    assert (ms + [m])[..|ms|] == ms;
  }

  /** `HumanoidRig`: one optional skeleton index per bone. */
  class HumanoidRig {
    var skeletonEntity: nat
    const boneIndices: array<Option<nat>>
    var scale: real

    ghost predicate Valid()
      reads this
    {
      boneIndices.Length == BoneCount
    }

    /** `get_bone_index`. */
    function GetBoneIndex(b: HumanoidBone): Option<nat>
      reads this, boneIndices
      requires Valid()
    {
      boneIndices[BoneIndex(b)]
    }

    /** `has_bone`: a bone without an index is absent. */
    predicate HasBone(b: HumanoidBone): (h: bool)
      reads this, boneIndices
      requires Valid()
      ensures !h ==> GetBoneIndex(b) == None
    {
      GetBoneIndex(b).Some?
    }

    /** `HumanoidRig::default`: no bone assigned, scale 1. */
    constructor (skeleton: nat)
      ensures Valid() && fresh(boneIndices)
      ensures forall b :: GetBoneIndex(b) == None && !HasBone(b)
      ensures skeletonEntity == skeleton && scale == 1.0
    {
      skeletonEntity := skeleton;
      boneIndices := new Option<nat>[BoneCount](_ => None);
      scale := 1.0;
    }

    /** `set_bone_index`: only that bone's entry changes. */
    method SetBoneIndex(b: HumanoidBone, index: nat)
      requires Valid()
      modifies boneIndices
      ensures GetBoneIndex(b) == Some(index) && HasBone(b)
      ensures forall c :: c != b ==> GetBoneIndex(c) == old(GetBoneIndex(c))
    {
      boneIndices[BoneIndex(b)] := Some(index);
      forall c | c != b ensures BoneIndex(c) != BoneIndex(b) {
        if BoneIndex(c) == BoneIndex(b) { BoneIndexInjective(c, b); }
      }
    }

    /** Record the bone one name matched, if any, at that name's index. */
    method Assign(m: Option<HumanoidBone>, index: nat)
      requires Valid()
      modifies boneIndices
      ensures forall b :: GetBoneIndex(b) == if m == Some(b) then Some(index) else old(GetBoneIndex(b))
    {
      if m.Some? {
        SetBoneIndex(m.value, index);
      }
    }

    /** `from_skeleton`: for each skeleton name in order, assign its index to
        the first bone it denotes; a later name for the same bone wins. */
    constructor FromSkeleton(skeleton: nat, names: seq<string>)
      ensures Valid() && fresh(boneIndices)
      ensures forall b :: GetBoneIndex(b) == LastAssigned(Matches(names), b)
      ensures forall b :: HasBone(b) <==> Some(b) in Matches(names)
      ensures skeletonEntity == skeleton && scale == 1.0
    {
      skeletonEntity := skeleton;
      boneIndices := new Option<nat>[BoneCount](_ => None);
      scale := 1.0;
      new;
      var i := 0;
      ghost var ms: seq<Option<HumanoidBone>> := [];
      while i < |names|
        invariant i <= |names| && Valid()
        invariant skeletonEntity == skeleton && scale == 1.0
        invariant ms == Matches(names)[..i]
        invariant forall b :: GetBoneIndex(b) == LastAssigned(ms, b)
      {
        var bone := FindBone(names[i]);
        MatchesStep(names, i, ms, bone);
        LastAssignedStep(ms, bone);
        Assign(bone, i);
        ms := ms + [bone];
        i := i + 1;
      }
      assert ms == Matches(names);
    }
  }

  // ---------------------------------------------------------------------
  // Locomotion

  /** `Locomotion`, with its discriminants 0..7. */
  datatype Locomotion = Idle | Walk | Run | Sprint | Jump | Fall | Land | Turn

  /** `Locomotion::VARIANT_COUNT`. */
  const LocomotionCount: nat := 8

  function LocomotionIndex(l: Locomotion): (i: nat)
    ensures i < LocomotionCount
  {
    match l
    case Idle => 0
    case Walk => 1
    case Run => 2
    case Sprint => 3
    case Jump => 4
    case Fall => 5
    case Land => 6
    case Turn => 7
  }

  /** `all_variants`. */
  function AllVariants(): (vs: seq<Locomotion>)
    ensures |vs| == LocomotionCount
    ensures forall i :: 0 <= i < |vs| ==> LocomotionIndex(vs[i]) == i
  {
    [Idle, Walk, Run, Sprint, Jump, Fall, Land, Turn]
  }

  lemma LocomotionIndexInjective(a: Locomotion, b: Locomotion)
    requires LocomotionIndex(a) == LocomotionIndex(b)
    ensures a == b
  {
  }

  /** A one-shot blend timer: its length, the time elapsed so far, and the
      finished flag, which only a tick sets (as Bevy's `Timer` does). */
  datatype Timer = Timer(duration: real, elapsed: real, finished: bool)

  /** `Timer::from_seconds(duration, TimerMode::Once)`: nothing elapsed,
      not finished, even for a zero length. */
  function NewTimer(duration: real): Timer
  {
    Timer(duration, 0.0, false)
  }

  /** The timer has been ticked to its length. */
  predicate Finished(t: Timer)
  {
    t.finished
  }

  /** A timer as ticking leaves it: not past its length, and finished only
      at its length. */
  ghost predicate TimerOk(t: Timer)
  {
    0.0 <= t.elapsed <= t.duration && (t.finished ==> t.elapsed == t.duration)
  }

  /** The elapsed share of the timer's length (1 for a zero length). */
  function Fraction(t: Timer): (f: real)
    ensures 0.0 <= t.elapsed <= t.duration ==> 0.0 <= f <= 1.0
    ensures TimerOk(t) && Finished(t) ==> f == 1.0
  {
    if t.duration == 0.0 then 1.0 else t.elapsed / t.duration
  }

  /** Advance a one-shot timer, stopping at its length; the tick decides
      whether it has finished. */
  function Tick(t: Timer, delta: real): (r: Timer)
    requires delta >= 0.0
    ensures r.duration == t.duration
    ensures t.elapsed <= t.duration ==> t.elapsed <= r.elapsed <= t.duration
    ensures Finished(r) <==> t.elapsed + delta >= t.duration
    ensures TimerOk(t) ==> TimerOk(r)
  {
    if t.elapsed + delta < t.duration then Timer(t.duration, t.elapsed + delta, false)
    else Timer(t.duration, t.duration, true)
  }

  /** The component test: a quarter-second step through a half-second
      transition is halfway, and another half-second finishes it. */
  lemma TimerExample()
    ensures Fraction(Tick(NewTimer(0.5), 0.25)) == 0.5
    ensures Finished(Tick(Tick(NewTimer(0.5), 0.25), 0.5))
    ensures !Finished(NewTimer(0.0)) && Finished(Tick(NewTimer(0.0), 0.0))
  {
  }

  /** `LocomotionState`. */
  class LocomotionState {
    var current: Locomotion
    var previous: Locomotion
    var transitionTimer: Option<Timer>

    /** A running timer has not overrun its length, and is finished only
        at its length. */
    ghost predicate Valid()
      reads this
    {
      transitionTimer.Some? ==> TimerOk(transitionTimer.value)
    }

    /** `LocomotionState::default`: idle, with no transition. */
    constructor ()
      ensures current == Idle && previous == Idle && transitionTimer == None
      ensures Valid()
    {
      current := Idle;
      previous := Idle;
      transitionTimer := None;
    }

    /** `transition_to`: a new state becomes current, the old current becomes
        previous and a fresh timer starts; the current state changes
        nothing. A new state is transitioning until the next update, even
        for a zero-length transition. */
    method TransitionTo(newState: Locomotion, duration: real)
      requires duration >= 0.0
      modifies this
      ensures newState == old(current) ==>
                current == old(current) && previous == old(previous) && transitionTimer == old(transitionTimer)
      ensures newState != old(current) ==>
                current == newState && previous == old(current) && transitionTimer == Some(NewTimer(duration))
                && IsTransitioning()
      ensures old(Valid()) ==> Valid()
    {
      if newState != current {
        previous := current;
        current := newState;
        transitionTimer := Some(NewTimer(duration));
      }
    }

    /** `transition_progress`: 0 = fully the previous state, 1 = fully the
        current one; 1 without a timer. */
    function TransitionProgress(): (p: real)
      reads this
      ensures transitionTimer.None? ==> p == 1.0
      ensures Valid() ==> 0.0 <= p <= 1.0
    {
      match transitionTimer
      case Some(t) => Fraction(t)
      case None => 1.0
    }

    /** `is_transitioning`: a timer that no tick has finished yet. Once
        not transitioning, the blend is fully in the current state. */
    predicate IsTransitioning(): (b: bool)
      reads this
      ensures b ==> transitionTimer.Some?
      ensures !b && Valid() ==> TransitionProgress() == 1.0
    {
      transitionTimer.Some? && !Finished(transitionTimer.value)
    }

    /** `update`: tick the timer; once it finishes, drop it and let the
        previous state catch up with the current one. */
    method Update(delta: real)
      requires delta >= 0.0
      modifies this
      ensures current == old(current)
      ensures old(transitionTimer).None? ==> transitionTimer == None && previous == old(previous)
      ensures old(transitionTimer).Some? && Finished(Tick(old(transitionTimer).value, delta)) ==>
                transitionTimer == None && previous == current
      ensures old(transitionTimer).Some? && !Finished(Tick(old(transitionTimer).value, delta)) ==>
                transitionTimer == Some(Tick(old(transitionTimer).value, delta)) && previous == old(previous)
      ensures IsTransitioning() <==> transitionTimer.Some?
      ensures old(Valid()) ==> Valid()
    {
      if transitionTimer.Some? {
        var t := Tick(transitionTimer.value, delta);
        if Finished(t) {
          transitionTimer := None;
          previous := current;
        } else {
          transitionTimer := Some(t);
        }
      }
    }
  }

  // ---------------------------------------------------------------------
  // Animation sets

  /** `AnimationSet`: per locomotion state an optional clip and graph node,
      a blend weight and a transition speed. */
  class AnimationSet {
    const clips: array<Option<nat>>
    const nodeIndices: array<Option<nat>>
    const blendWeights: array<real>
    const transitionSpeeds: array<real>
    var graph: nat
    var characterType: string

    ghost predicate Valid()
      reads this
    {
      && clips.Length == LocomotionCount && nodeIndices.Length == LocomotionCount
      && blendWeights.Length == LocomotionCount && transitionSpeeds.Length == LocomotionCount
      && clips != nodeIndices && blendWeights != transitionSpeeds
    }

    /** `AnimationSet::new` (and `default`, with type "default"): no clips
        or nodes, every weight and speed 1. */
    constructor (kind: string)
      ensures Valid() && characterType == kind
      ensures fresh(clips) && fresh(nodeIndices) && fresh(blendWeights) && fresh(transitionSpeeds)
      ensures forall s :: GetClip(s) == None && GetNodeIndex(s) == None
      ensures forall s :: GetBlendWeight(s) == 1.0 && GetTransitionSpeed(s) == 1.0
    {
      clips := new Option<nat>[LocomotionCount](_ => None);
      nodeIndices := new Option<nat>[LocomotionCount](_ => None);
      blendWeights := new real[LocomotionCount](_ => 1.0);
      transitionSpeeds := new real[LocomotionCount](_ => 1.0);
      graph := 0;
      characterType := kind;
    }

    function GetClip(s: Locomotion): Option<nat>
      reads this, clips
      requires Valid()
    {
      clips[LocomotionIndex(s)]
    }

    function GetNodeIndex(s: Locomotion): Option<nat>
      reads this, nodeIndices
      requires Valid()
    {
      nodeIndices[LocomotionIndex(s)]
    }

    function GetBlendWeight(s: Locomotion): real
      reads this, blendWeights
      requires Valid()
    {
      blendWeights[LocomotionIndex(s)]
    }

    function GetTransitionSpeed(s: Locomotion): real
      reads this, transitionSpeeds
      requires Valid()
    {
      transitionSpeeds[LocomotionIndex(s)]
    }

    /** `add_clip`: the state's clip and weight, and nothing else, change. */
    method AddClip(s: Locomotion, clip: nat, weight: real)
      requires Valid()
      modifies clips, blendWeights
      ensures GetClip(s) == Some(clip) && GetBlendWeight(s) == weight
      ensures forall t :: t != s ==> GetClip(t) == old(GetClip(t)) && GetBlendWeight(t) == old(GetBlendWeight(t))
    {
      clips[LocomotionIndex(s)] := Some(clip);
      blendWeights[LocomotionIndex(s)] := weight;
      forall t | t != s ensures LocomotionIndex(t) != LocomotionIndex(s) {
        if LocomotionIndex(t) == LocomotionIndex(s) { LocomotionIndexInjective(t, s); }
      }
    }

    /** `set_clip`: `add_clip` with weight 1. */
    method SetClip(s: Locomotion, clip: nat)
      requires Valid()
      modifies clips, blendWeights
      ensures GetClip(s) == Some(clip) && GetBlendWeight(s) == 1.0
      ensures forall t :: t != s ==> GetClip(t) == old(GetClip(t)) && GetBlendWeight(t) == old(GetBlendWeight(t))
    {
      AddClip(s, clip, 1.0);
    }

    /** `set_node_index`: only that state's node changes. */
    method SetNodeIndex(s: Locomotion, node: nat)
      requires Valid()
      modifies nodeIndices
      ensures GetNodeIndex(s) == Some(node)
      ensures forall t :: t != s ==> GetNodeIndex(t) == old(GetNodeIndex(t))
    {
      nodeIndices[LocomotionIndex(s)] := Some(node);
      forall t | t != s ensures LocomotionIndex(t) != LocomotionIndex(s) {
        if LocomotionIndex(t) == LocomotionIndex(s) { LocomotionIndexInjective(t, s); }
      }
    }

    /** `set_transition_speed`: only that state's speed changes. */
    method SetTransitionSpeed(s: Locomotion, speed: real)
      requires Valid()
      modifies transitionSpeeds
      ensures GetTransitionSpeed(s) == speed
      ensures forall t :: t != s ==> GetTransitionSpeed(t) == old(GetTransitionSpeed(t))
    {
      transitionSpeeds[LocomotionIndex(s)] := speed;
      forall t | t != s ensures LocomotionIndex(t) != LocomotionIndex(s) {
        if LocomotionIndex(t) == LocomotionIndex(s) { LocomotionIndexInjective(t, s); }
      }
    }

    /** `validate`: the states, in variant order, that `validate` warns
        about because they have no clip. */
    method Validate() returns (missing: seq<Locomotion>)
      requires Valid()
      ensures forall s :: s in missing <==> GetClip(s).None?
      ensures forall i, j :: 0 <= i < j < |missing| ==> LocomotionIndex(missing[i]) < LocomotionIndex(missing[j])
    {
      var vs := AllVariants();
      missing := [];
      var i := 0;
      while i < |vs|
        invariant i <= |vs|
        invariant forall s :: s in missing <==> LocomotionIndex(s) < i && GetClip(s).None?
        invariant forall k :: 0 <= k < |missing| ==> LocomotionIndex(missing[k]) < i
        invariant forall a, b :: 0 <= a < b < |missing| ==> LocomotionIndex(missing[a]) < LocomotionIndex(missing[b])
      {
        if GetClip(vs[i]).None? {
          missing := missing + [vs[i]];
        }
        forall s | LocomotionIndex(s) == i ensures s == vs[i] {
          LocomotionIndexInjective(s, vs[i]);
        }
        i := i + 1;
      }
    }
  }
}

/**
 * Picking a subject's icon and cover image from its name
 * (src/utils/subjectConstants.jsx): the name is lower-cased, then keywords are
 * tried in a fixed order and the first one found decides.
 */
module SubjectStyle {

  /** The icons of the subject cards. */
  datatype Icon =
    | Stethoscope | HeartPulse | Dna | FlaskConical | Syringe | Microscope | ShieldAlert | Shield
    | Activity | Scissors | Baby | Eye | Thermometer | Brain | Database

  /** The cover images of the subject cards, one per picture. */
  datatype Image =
    | AnatomyImage | PhysiologyImage | BiochemistryImage | PathologyImage | PharmacologyImage
    | MicrobiologyImage | ForensicImage | MedicineImage | SurgeryImage | ObstetricsImage
    | PediatricsImage | OphthalmologyImage | EntImage | OrthopedicsImage | DermatologyImage
    | PsychiatryImage | RadiologyImage | AnaesthesiaImage | NeurologyImage | CommunityImage
    | ClinicalImage

  // ---------------------------------------------------------------- text

  function LowerChar(c: char): char {
    if 'A' <= c <= 'Z' then (c as int + 32) as char else c
  }

  /** `toLowerCase`, over ASCII letters. */
  function Lower(s: string): (r: string)
    ensures |r| == |s|
    ensures forall k :: 0 <= k < |s| ==> r[k] == LowerChar(s[k])
  {
    seq(|s|, k requires 0 <= k < |s| => LowerChar(s[k]))
  }

  /** Lower-casing is idempotent. */
  lemma LowerTwice(s: string)
    ensures Lower(Lower(s)) == Lower(s)
  {
  }

  /** `part` occurs in `s` starting at position `k`. */
  predicate OccursAt(s: string, part: string, k: int) {
    0 <= k && k + |part| <= |s| && s[k..k + |part|] == part
  }

  /** `s.includes(part)`. */
  predicate Contains(s: string, part: string) {
    exists k :: 0 <= k <= |s| && OccursAt(s, part, k)
  }

  /** A keyword with a character the name lacks does not occur in it. */
  lemma MissingCharNotContained(s: string, part: string, c: char)
    requires c in part && c !in s
    ensures !Contains(s, part)
  {
  }

  /** A keyword whose first two characters never stand side by side in the name does not occur in it. */
  lemma MissingPairNotContained(s: string, part: string)
    requires |part| >= 2
    requires forall k :: 0 <= k < |s| - 1 ==> !(s[k] == part[0] && s[k + 1] == part[1])
    ensures !Contains(s, part)
  {
    forall k | 0 <= k <= |s|
      ensures !OccursAt(s, part, k)
    {
      if k + |part| <= |s| {
        assert s[k..k + |part|][0] == s[k] && s[k..k + |part|][1] == s[k + 1];
      }
    }
  }

  /** A name that contains a keyword contains every prefix of it. */
  lemma PrefixContained(s: string, part: string, prefix: string)
    requires prefix <= part && Contains(s, part)
    ensures Contains(s, prefix)
  {
    var k :| 0 <= k <= |s| && OccursAt(s, part, k);
    assert s[k..k + |prefix|] == s[k..k + |part|][..|prefix|];
    assert OccursAt(s, prefix, k);
  }

  lemma ForensicSaysForen(s: string)
    ensures Contains(s, "forensic") ==> Contains(s, "foren")
  {
    if Contains(s, "forensic") {
      PrefixContained(s, "forensic", "foren");
    }
  }

  // ---------------------------------------------------------------- icons

  /** The keyword chain of `getSubjectIcon`, on an already lower-cased name. */
  function IconOf(n: string): (i: Icon)
    ensures i == Database && !Contains(n, "radio") <==> NoIconKeyword(n)
  {
    if Contains(n, "anatomy") then Stethoscope
    else if Contains(n, "physiology") then HeartPulse
    else if Contains(n, "biochem") then Dna
    else if Contains(n, "pathology") then FlaskConical
    else if Contains(n, "pharmacol") then Syringe
    else if Contains(n, "microbiology") then Microscope
    else if Contains(n, "forensic") then ShieldAlert
    else if Contains(n, "community") || Contains(n, "psm") then Shield
    else if Contains(n, "internal medicine") || (Contains(n, "medicine") && !Contains(n, "forensic")) then Activity
    else if Contains(n, "surgery") then Scissors
    else if Contains(n, "pediatrics") then Baby
    else if Contains(n, "ophthal") then Eye
    else if Contains(n, "ent") || Contains(n, "oto") then Thermometer
    else if Contains(n, "obg") || Contains(n, "gyn") || Contains(n, "obstetrics") then Baby
    else if Contains(n, "ortho") then Activity
    else if Contains(n, "derma") then Activity
    else if Contains(n, "psychiatry") then Brain
    else if Contains(n, "neuro") then Brain
    else if Contains(n, "radio") then Database
    else if Contains(n, "anaesthesia") then Thermometer
    else Database
  }

  /** `getSubjectIcon`. */
  function SubjectIcon(name: string): (i: Icon)
    ensures NoIconKeyword(Lower(name)) ==> i == Database
  {
    IconOf(Lower(name))
  }

  /** None of the keywords tried before "forensic" in `getSubjectIcon`. */
  predicate NoIconKeywordBeforeForensic(n: string) {
    && !Contains(n, "anatomy") && !Contains(n, "physiology") && !Contains(n, "biochem")
    && !Contains(n, "pathology") && !Contains(n, "pharmacol") && !Contains(n, "microbiology")
  }

  /** Every keyword of `getSubjectIcon`. */
  predicate NoIconKeyword(n: string) {
    && NoIconKeywordBeforeForensic(n) && !Contains(n, "forensic") && !Contains(n, "community")
    && !Contains(n, "psm") && !Contains(n, "internal medicine") && !Contains(n, "medicine")
    && !Contains(n, "surgery") && !Contains(n, "pediatrics") && !Contains(n, "ophthal")
    && !Contains(n, "ent") && !Contains(n, "oto") && !Contains(n, "obg") && !Contains(n, "gyn")
    && !Contains(n, "obstetrics") && !Contains(n, "ortho") && !Contains(n, "derma")
    && !Contains(n, "psychiatry") && !Contains(n, "neuro") && !Contains(n, "radio")
    && !Contains(n, "anaesthesia")
  }

  /** The icon depends on the name only up to letter case. */
  lemma IconIgnoresCase(name: string)
    ensures SubjectIcon(Lower(name)) == SubjectIcon(name)
  {
    LowerTwice(name);
  }

  /** First match wins: "forensic" gives the forensic icon even when the name also says "medicine". */
  lemma ForensicBeatsMedicine(n: string)
    requires NoIconKeywordBeforeForensic(n) && Contains(n, "forensic")
    ensures IconOf(n) == ShieldAlert
  {
  }

  /** "community" or "psm" gives the shield even when the name also says "medicine". */
  lemma CommunityBeatsMedicine(n: string)
    requires NoIconKeywordBeforeForensic(n) && !Contains(n, "forensic")
    requires Contains(n, "community") || Contains(n, "psm")
    ensures IconOf(n) == Shield
  {
  }

  /** A name with no keyword gets the database icon. */
  lemma IconDefault(n: string)
    requires NoIconKeyword(n)
    ensures IconOf(n) == Database
  {
  }

  lemma ForensicMedicineIcon()
    ensures SubjectIcon("Forensic Medicine") == ShieldAlert
  {
    var n := "forensic medicine";
    assert Lower("Forensic Medicine") == n;
    MissingCharNotContained(n, "anatomy", 'a');
    MissingCharNotContained(n, "physiology", 'p');
    MissingCharNotContained(n, "biochem", 'b');
    MissingCharNotContained(n, "pathology", 'p');
    MissingCharNotContained(n, "pharmacol", 'p');
    MissingCharNotContained(n, "microbiology", 'b');
    assert OccursAt(n, "forensic", 0);
  }

  // ---------------------------------------------------------------- images

  /** None of the keywords `getSubjectImage` tries, "community" and "medicine" aside. */
  predicate NoImageKeywordButCommunityMedicine(n: string) {
    && !Contains(n, "anatomy") && !Contains(n, "physiology") && !Contains(n, "biochem")
    && !Contains(n, "patho") && !Contains(n, "pharm") && !Contains(n, "micro") && !Contains(n, "foren")
    && !Contains(n, "internal medicine") && !Contains(n, "surg") && !Contains(n, "obg")
    && !Contains(n, "gyn") && !Contains(n, "obstetrics") && !Contains(n, "ped")
    && !Contains(n, "ophthal") && !Contains(n, "eye") && !Contains(n, "ent") && !Contains(n, "oto")
    && !Contains(n, "ortho") && !Contains(n, "derm") && !Contains(n, "psych") && !Contains(n, "radio")
    && !Contains(n, "anaes") && !Contains(n, "neuro")
  }

  /** None of the keywords `getSubjectImage` tries. */
  predicate NoImageKeyword(n: string) {
    && NoImageKeywordButCommunityMedicine(n)
    && !Contains(n, "community") && !Contains(n, "medicine") && !Contains(n, "psm")
  }

  /** The keyword chain of `getSubjectImage`, on an already lower-cased name. */
  function ImageOf(n: string): (r: Image)
    ensures r == ClinicalImage <==> NoImageKeyword(n)
  {
    ForensicSaysForen(n);
    if Contains(n, "anatomy") then AnatomyImage
    else if Contains(n, "physiology") then PhysiologyImage
    else if Contains(n, "biochem") then BiochemistryImage
    else if Contains(n, "patho") then PathologyImage
    else if Contains(n, "pharm") then PharmacologyImage
    else if Contains(n, "micro") then MicrobiologyImage
    else if Contains(n, "foren") then ForensicImage
    else if Contains(n, "internal medicine")
            || (Contains(n, "medicine") && !Contains(n, "forensic") && !Contains(n, "community")) then MedicineImage
    else if Contains(n, "surg") then SurgeryImage
    else if Contains(n, "obg") || Contains(n, "gyn") || Contains(n, "obstetrics") then ObstetricsImage
    else if Contains(n, "ped") then PediatricsImage
    else ImageAfterPediatrics(n)
  }

  /** The specialities `getSubjectImage` tries after pediatrics, and its default. */
  function ImageAfterPediatrics(n: string): (r: Image)
    ensures r == ClinicalImage <==>
              && !Contains(n, "ophthal") && !Contains(n, "eye") && !Contains(n, "ent") && !Contains(n, "oto")
              && !Contains(n, "ortho") && !Contains(n, "derm") && !Contains(n, "psych") && !Contains(n, "radio")
              && !Contains(n, "anaes") && !Contains(n, "neuro") && !Contains(n, "community") && !Contains(n, "psm")
  {
    if Contains(n, "ophthal") || Contains(n, "eye") then OphthalmologyImage
    else if Contains(n, "ent") || Contains(n, "oto") then EntImage
    else if Contains(n, "ortho") then OrthopedicsImage
    else if Contains(n, "derm") then DermatologyImage
    else if Contains(n, "psych") then PsychiatryImage
    else if Contains(n, "radio") then RadiologyImage
    else if Contains(n, "anaes") then AnaesthesiaImage
    else if Contains(n, "neuro") then NeurologyImage
    else if Contains(n, "community") || Contains(n, "psm") then CommunityImage
    else ClinicalImage
  }

  /** `getSubjectImage`, as the picture it chooses. */
  function SubjectImage(name: string): (r: Image)
    ensures r == ClinicalImage <==> NoImageKeyword(Lower(name))
  {
    ImageOf(Lower(name))
  }

  /** The address of each picture. */
  function ImageUrl(image: Image): string {
    match image
    case AnatomyImage => "https://images.unsplash.com/photo-1530210124550-912dc1381cb8?q=80&w=2070&auto=format&fit=crop"
    case PhysiologyImage => "https://images.unsplash.com/photo-1674702693637-330943cdf0a1?q=80&w=1073&auto=format&fit=crop"
    case BiochemistryImage => "https://images.unsplash.com/photo-1748261347768-a32434751a9a?q=80&w=687&auto=format&fit=crop"
    case PathologyImage => "https://images.unsplash.com/photo-1614308460927-5024ba2e1dcb?q=80&w=1170&auto=format&fit=crop"
    case PharmacologyImage => "https://images.unsplash.com/photo-1584308666744-24d5c474f2ae?auto=format&fit=crop&q=80&w=1000"
    case MicrobiologyImage => "https://images.unsplash.com/photo-1584036561566-baf8f5f1b144?q=80&w=1332&auto=format&fit=crop"
    case ForensicImage => "https://images.unsplash.com/photo-1582213782179-e0d53f98f2ca?auto=format&fit=crop&q=80&w=1000"
    case MedicineImage => "https://plus.unsplash.com/premium_photo-1661770160867-2c3a5092ec3b?q=80&w=1170&auto=format&fit=crop"
    case SurgeryImage => "https://images.unsplash.com/photo-1551076805-e1869033e561?auto=format&fit=crop&q=80&w=1000"
    case ObstetricsImage => "https://plus.unsplash.com/premium_photo-1661606400554-a2055d50ee08?q=80&w=1169&auto=format&fit=crop"
    case PediatricsImage => "https://images.unsplash.com/photo-1516627145497-ae6968895b74?auto=format&fit=crop&q=80&w=1000"
    case OphthalmologyImage => "https://images.unsplash.com/photo-1576091160399-112ba8d25d1d?auto=format&fit=crop&q=80&w=1000"
    case EntImage => "https://plus.unsplash.com/premium_photo-1673958772197-b490555f66c1?q=80&w=687&auto=format&fit=crop"
    case OrthopedicsImage => "https://plus.unsplash.com/premium_photo-1726880466207-d85def51628f?q=80&w=1136&auto=format&fit=crop"
    case DermatologyImage => "https://images.unsplash.com/photo-1620916566398-39f1143ab7be?auto=format&fit=crop&q=80&w=1000"
    case PsychiatryImage => "https://images.unsplash.com/photo-1518331647614-7a1f04cd34cf?auto=format&fit=crop&q=80&w=1000"
    case RadiologyImage => "https://images.unsplash.com/photo-1530497610245-94d3c16cda28?auto=format&fit=crop&q=80&w=1000"
    case AnaesthesiaImage => "https://images.unsplash.com/photo-1584017911766-d451b3d0e843?auto=format&fit=crop&q=80&w=1000"
    case NeurologyImage => "https://images.unsplash.com/photo-1559757175-0eb30cd8c063?auto=format&fit=crop&q=80&w=1000"
    case CommunityImage => "https://images.unsplash.com/photo-1532938911079-1b06ac7ceec7?auto=format&fit=crop&q=80&w=1000"
    case ClinicalImage => "https://plus.unsplash.com/premium_photo-1681996348432-1be4193201f1?q=80&w=1170&auto=format&fit=crop"
  }

  /** The pediatrics and orthopedics pictures are different pictures, so the misrouting shows. */
  lemma PediatricAndOrthopedicUrlsDiffer()
    ensures ImageUrl(PediatricsImage) != ImageUrl(OrthopedicsImage)
  {
    assert |ImageUrl(PediatricsImage)| != |ImageUrl(OrthopedicsImage)|;
  }

  /** The image depends on the name only up to letter case. */
  lemma ImageIgnoresCase(name: string)
    ensures SubjectImage(Lower(name)) == SubjectImage(name)
  {
    LowerTwice(name);
  }

  /** The medicine picture skips "community" names, which reach the community picture. */
  lemma CommunityMedicineImage(n: string)
    requires NoImageKeywordButCommunityMedicine(n) && Contains(n, "community")
    ensures ImageOf(n) == CommunityImage
  {
  }

  /** A name with no keyword gets the default clinical picture. */
  lemma ImageDefault(n: string)
    requires NoImageKeyword(n)
    ensures ImageOf(n) == ClinicalImage
  {
  }

  /** "orthopedics" holds none of the keywords tried before "ped", "medicine" included. */
  lemma OrthopedicsMissesEarlyKeywords()
    ensures !Contains("orthopedics", "anatomy") && !Contains("orthopedics", "physiology")
    ensures !Contains("orthopedics", "biochem") && !Contains("orthopedics", "patho")
    ensures !Contains("orthopedics", "pharm") && !Contains("orthopedics", "micro")
    ensures !Contains("orthopedics", "foren")
  {
    var n := "orthopedics";
    MissingCharNotContained(n, "anatomy", 'a');
    MissingCharNotContained(n, "physiology", 'y');
    MissingCharNotContained(n, "biochem", 'b');
    MissingCharNotContained(n, "patho", 'a');
    MissingCharNotContained(n, "pharm", 'a');
    MissingCharNotContained(n, "micro", 'm');
    MissingCharNotContained(n, "foren", 'f');
  }

  lemma OrthopedicsMissesClinicalKeywords()
    ensures !Contains("orthopedics", "internal medicine") && !Contains("orthopedics", "medicine")
    ensures !Contains("orthopedics", "surg") && !Contains("orthopedics", "obg")
    ensures !Contains("orthopedics", "gyn") && !Contains("orthopedics", "obstetrics")
  {
    var n := "orthopedics";
    MissingCharNotContained(n, "internal medicine", 'a');
    MissingCharNotContained(n, "medicine", 'm');
    MissingCharNotContained(n, "surg", 'u');
    MissingCharNotContained(n, "obg", 'b');
    MissingCharNotContained(n, "gyn", 'y');
    MissingCharNotContained(n, "obstetrics", 'b');
  }

  /** As written, "ped" is tried before "ortho", so "Orthopedics" gets the pediatric picture. */
  lemma OrthopedicsGetsPediatricImage()
    ensures SubjectImage("Orthopedics") == PediatricsImage
  {
    assert Lower("Orthopedics") == "orthopedics";
    OrthopedicsMissesEarlyKeywords();
    OrthopedicsMissesClinicalKeywords();
    assert OccursAt("orthopedics", "ped", 5);
  }

  /** `getSubjectImage` with the pediatric picture kept from names that mention "ortho". */
  function ImageOfCorrected(n: string): (r: Image)
    ensures r == PediatricsImage ==> Contains(n, "ped") && !Contains(n, "ortho")
  {
    if Contains(n, "anatomy") then AnatomyImage
    else if Contains(n, "physiology") then PhysiologyImage
    else if Contains(n, "biochem") then BiochemistryImage
    else if Contains(n, "patho") then PathologyImage
    else if Contains(n, "pharm") then PharmacologyImage
    else if Contains(n, "micro") then MicrobiologyImage
    else if Contains(n, "foren") then ForensicImage
    else if Contains(n, "internal medicine")
            || (Contains(n, "medicine") && !Contains(n, "forensic") && !Contains(n, "community")) then MedicineImage
    else if Contains(n, "surg") then SurgeryImage
    else if Contains(n, "obg") || Contains(n, "gyn") || Contains(n, "obstetrics") then ObstetricsImage
    else if Contains(n, "ped") && !Contains(n, "ortho") then PediatricsImage
    else ImageAfterPediatrics(n)
  }

  /** The corrected `getSubjectImage`. */
  function SubjectImageCorrected(name: string): (r: Image)
    ensures Contains(Lower(name), "ortho") ==> r != PediatricsImage
  {
    ImageOfCorrected(Lower(name))
  }

  /** The correction only changes names that mention "ortho", and those never get the pediatric picture. */
  lemma CorrectedImageSpec(n: string)
    ensures !Contains(n, "ortho") ==> ImageOfCorrected(n) == ImageOf(n)
    ensures Contains(n, "ortho") ==> ImageOfCorrected(n) != PediatricsImage
  {
  }

  lemma OrthopedicsMissesSenseKeywords()
    ensures !Contains("orthopedics", "ophthal") && !Contains("orthopedics", "eye")
    ensures !Contains("orthopedics", "ent") && !Contains("orthopedics", "oto")
  {
    var n := "orthopedics";
    MissingCharNotContained(n, "ophthal", 'a');
    MissingCharNotContained(n, "eye", 'y');
    MissingCharNotContained(n, "ent", 'n');
    MissingPairNotContained(n, "oto");
  }

  /** After the correction, "Orthopedics" reaches its own picture. */
  lemma OrthopedicsGetsOrthopedicImage()
    ensures SubjectImageCorrected("Orthopedics") == OrthopedicsImage
  {
    assert Lower("Orthopedics") == "orthopedics";
    OrthopedicsMissesEarlyKeywords();
    OrthopedicsMissesClinicalKeywords();
    OrthopedicsMissesSenseKeywords();
    assert OccursAt("orthopedics", "ortho", 0);
  }
}
